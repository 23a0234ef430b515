/** The press-then-drag gesture of an item card.  A press registers two
    release listeners on the document and starts a 100 ms timer; if no
    release came before the timer, the drag is armed: the grab offset is
    recorded, `moveSelected` is set, and four document listeners make the
    card follow the pointer until the next release.  A click while armed is
    swallowed and springs the card back.  Timers are events the caller
    fires; coordinates are integers. */
module ItemCard {
  import opened Js

  datatype Point = Point(x: int, y: int)

  /** The document events the card listens to. */
  datatype DocEvent = MouseUp | PointerUp | MouseMove | PointerMove

  predicate IsRelease(e: DocEvent) {
    e == MouseUp || e == PointerUp
  }

  /** The listener functions: the `release` closure of press `press`, and
      the `handleMouseUp` / `handleMouseMove` closures of the render in
      which the `gen`-th offset was recorded. */
  datatype Handler = Release(press: nat) | EndDrag(gen: nat) | FollowPointer(gen: nat)

  /** One `addEventListener(event, handler)`; the document keeps a set. */
  datatype Listener = Listener(event: DocEvent, handler: Handler)

  /** The card's inline position: none, pinned under the pointer, or set
      by the spring-back timer (its centring arithmetic is not modelled). */
  datatype Style = Unstyled | Fixed(left: int, top: int) | Centring

  /** The wrapper's style: none, raised above the page, or collapsed to
      zero width while its card is dragged out. */
  datatype ParentStyle = Plain | Raised | Collapsed

  /** A press waiting for its timer: its `active` flag and where it began. */
  datatype Press = Press(active: bool, client: Point)

  /** `l` is the release listener of a pending press. */
  predicate ReleaseOfPending(l: Listener, presses: map<nat, Press>) {
    l.handler.Release? && l.handler.press in presses && IsRelease(l.event)
  }

  /** `l` is one of the four listeners of drag `g`. */
  predicate OfDrag(l: Listener, g: nat) {
    if IsRelease(l.event) then l.handler == EndDrag(g) else l.handler == FollowPointer(g)
  }

  function ReleaseListeners(k: nat): set<Listener> {
    {Listener(MouseUp, Release(k)), Listener(PointerUp, Release(k))}
  }

  function DragListeners(g: nat): set<Listener> {
    {Listener(MouseUp, EndDrag(g)), Listener(PointerUp, EndDrag(g)),
     Listener(MouseMove, FollowPointer(g)), Listener(PointerMove, FollowPointer(g))}
  }

  /** The document holds exactly the release listeners of the pending
      presses and, while a drag is attached, the four listeners of drag `g`. */
  ghost predicate Registered(listeners: set<Listener>, presses: map<nat, Press>, attached: bool, g: nat) {
    forall l :: l in listeners <==> ReleaseOfPending(l, presses) || (attached && OfDrag(l, g))
  }

  /** The two listener groups, described by their members. */
  lemma ListenerGroups(g: nat)
    ensures forall l :: l in DragListeners(g) <==> OfDrag(l, g)
    ensures forall l, k :: l in ReleaseListeners(k) <==> l.handler == Release(k) && IsRelease(l.event)
  {
    forall l ensures l in DragListeners(g) <==> OfDrag(l, g) {
      match l.event
      case MouseUp =>
      case PointerUp =>
      case MouseMove =>
      case PointerMove =>
    }
  }

  /** A new press brings exactly its two release listeners. */
  lemma RegisterPress(listeners: set<Listener>, presses: map<nat, Press>, attached: bool, g: nat, k: nat, p: Press)
    requires Registered(listeners, presses, attached, g)
    ensures Registered(listeners + ReleaseListeners(k), presses[k := p], attached, g)
  {
    ListenerGroups(g);
  }

  /** A fired timer takes exactly its press's release listeners with it. */
  lemma ForgetPress(listeners: set<Listener>, presses: map<nat, Press>, attached: bool, g: nat, k: nat)
    requires Registered(listeners, presses, attached, g)
    ensures Registered(listeners - ReleaseListeners(k), presses - {k}, attached, g)
  {
    ListenerGroups(g);
  }

  /** Detaching the current drag's group leaves only release listeners. */
  lemma DetachDrag(listeners: set<Listener>, presses: map<nat, Press>, attached: bool, g: nat, presses': map<nat, Press>)
    requires Registered(listeners, presses, attached, g)
    requires presses'.Keys == presses.Keys
    ensures Registered(listeners - DragListeners(g), presses', false, g)
  {
    ListenerGroups(g);
  }

  /** Swapping drag `g`'s group for drag `g + 1`'s attaches the new drag. */
  lemma Rearm(listeners: set<Listener>, presses: map<nat, Press>, attached: bool, g: nat)
    requires Registered(listeners, presses, attached, g)
    ensures Registered(listeners - DragListeners(g) + DragListeners(g + 1), presses, true, g + 1)
  {
    ListenerGroups(g);
    ListenerGroups(g + 1);
  }

  /** The grab offset recorded when a drag is armed: client position minus
      the card's origin plus the page scroll. */
  function DragOffset(client: Point, origin: Point, scroll: Point): (offset: Point)
    ensures offset.x + origin.x == client.x + scroll.x
    ensures offset.y + origin.y == client.y + scroll.y
  {
    Point(client.x - origin.x + scroll.x, client.y - origin.y + scroll.y)
  }

  /** Where a drag pins the card: the pointer minus the offset, the offset
      counting as 0 while none is recorded. */
  function FollowPosition(client: Point, offset: Option<Point>): (p: Point)
    ensures offset.None? ==> p == client
    ensures offset.Some? ==> p.x + offset.value.x == client.x && p.y + offset.value.y == client.y
  {
    var o := if offset.Some? then offset.value else Point(0, 0);
    Point(client.x - o.x, client.y - o.y)
  }

  /** While the pointer stays where the drag was armed, the card is pinned
      at its origin shifted back by the scroll: it stays in place exactly
      when the page is not scrolled. */
  lemma PickUpPosition(client: Point, origin: Point, scroll: Point)
    ensures FollowPosition(client, Some(DragOffset(client, origin, scroll))) ==
      Point(origin.x - scroll.x, origin.y - scroll.y)
    ensures FollowPosition(client, Some(DragOffset(client, origin, scroll))) == origin <==> scroll == Point(0, 0)
  {
  }

  /** The pinned card moves exactly as far as the pointer does. */
  lemma FollowTracksPointer(a: Point, b: Point, offset: Option<Point>)
    ensures FollowPosition(b, offset).x - FollowPosition(a, offset).x == b.x - a.x
    ensures FollowPosition(b, offset).y - FollowPosition(a, offset).y == b.y - a.y
  {
  }

  /** A press's release listeners and a drag's listeners are different
      functions, so removing one group never removes the other. */
  lemma ListenerGroupsDisjoint(k: nat, g: nat, h: nat)
    ensures ReleaseListeners(k) !! DragListeners(g)
    ensures g != h ==> DragListeners(g) !! DragListeners(h)
    ensures |DragListeners(g)| == 4 && |ReleaseListeners(k)| == 2
  {
    var d := DragListeners(g);
    assert d == {Listener(MouseUp, EndDrag(g))} + {Listener(PointerUp, EndDrag(g))}
      + {Listener(MouseMove, FollowPointer(g))} + {Listener(PointerMove, FollowPointer(g))};
  }

  class Card {
    /** Long-press selection (shows the edit overlay). */
    var selected: bool
    var moveSelected: bool
    var initialOffset: Option<Point>
    var style: Style
    var parentStyle: ParentStyle
    /** Presses whose timer has not fired yet, by press number. */
    var presses: map<nat, Press>
    var nextPress: nat
    /** How many offsets have been recorded; the drag closures of the
        current render carry this number. */
    var gen: nat
    /** The document's registered listeners. */
    var listeners: set<Listener>
    /** Pending spring-back timers (100 ms) and reset timers (600 ms). */
    var centreTimers: nat
    var resetTimers: nat

    /** Whether the current drag's four listeners are attached. */
    ghost var dragAttached: bool

    /** The document holds exactly the release listeners of the pending
        presses and, while a drag is attached, the current drag's four
        listeners; a drag is attached only once an offset exists. */
    ghost predicate Valid()
      reads this
    {
      && (forall k :: k in presses ==> k < nextPress)
      && Registered(listeners, presses, dragAttached, gen)
      && (dragAttached ==> initialOffset.Some?)
    }

    /** The drag state is untouched. */
    twostate predicate SameDrag()
      reads this
    {
      moveSelected == old(moveSelected) && initialOffset == old(initialOffset) && gen == old(gen)
      && dragAttached == old(dragAttached)
    }

    /** The look (selection, styles, pending spring-back timers) is untouched. */
    twostate predicate SameLook()
      reads this
    {
      && selected == old(selected) && style == old(style) && parentStyle == old(parentStyle)
      && centreTimers == old(centreTimers) && resetTimers == old(resetTimers)
    }

    /** The press bookkeeping and the listeners are untouched. */
    twostate predicate SamePresses()
      reads this
    {
      presses == old(presses) && nextPress == old(nextPress) && listeners == old(listeners)
    }

    constructor()
      ensures Valid()
      ensures !selected && !moveSelected && initialOffset.None? && style == Unstyled && parentStyle == Plain
      ensures presses == map[] && nextPress == 0 && gen == 0 && listeners == {}
      ensures centreTimers == 0 && resetTimers == 0
    {
      selected := false;
      moveSelected := false;
      initialOffset := None;
      style := Unstyled;
      parentStyle := Plain;
      presses := map[];
      nextPress := 0;
      gen := 0;
      listeners := {};
      dragAttached := false;
      centreTimers := 0;
      resetTimers := 0;
    }

    /** `handleMouseDown`: a new active press with its release listeners. */
    method PointerDown(client: Point)
      requires Valid()
      modifies this
      ensures Valid()
      ensures presses == old(presses)[old(nextPress) := Press(true, client)]
      ensures nextPress == old(nextPress) + 1
      ensures listeners == old(listeners) + ReleaseListeners(old(nextPress))
      ensures SameDrag() && SameLook()
    {
      var k := nextPress;
      RegisterPress(listeners, presses, dragAttached, gen, k, Press(true, client));
      presses := presses[k := Press(true, client)];
      listeners := listeners + ReleaseListeners(k);
      nextPress := nextPress + 1;
    }

    /** The document dispatches `e` at `client`.  A release reaches every
        pending press's `release` (each goes inactive) and the current
        drag's `handleMouseUp` (which detaches the four drag listeners).  A
        move reaches `handleMouseMove` if it is registered, which pins the
        card under the pointer and collapses the wrapper. */
    method Dispatch(e: DocEvent, client: Point)
      requires Valid()
      modifies this
      ensures Valid()
      ensures moveSelected == old(moveSelected) && initialOffset == old(initialOffset) && gen == old(gen)
      ensures nextPress == old(nextPress)
      ensures IsRelease(e) ==>
        && !dragAttached
        && presses.Keys == old(presses).Keys
        && (forall k :: k in presses ==> presses[k] == old(presses)[k].(active := false))
        && listeners == old(listeners) - DragListeners(gen)
        && SameLook()
      ensures !IsRelease(e) ==> SamePresses() && dragAttached == old(dragAttached)
      ensures !IsRelease(e) && Listener(e, FollowPointer(gen)) in old(listeners) ==>
        style == Fixed(FollowPosition(client, initialOffset).x, FollowPosition(client, initialOffset).y)
        && parentStyle == Collapsed
        && selected == old(selected) && centreTimers == old(centreTimers) && resetTimers == old(resetTimers)
      ensures !IsRelease(e) && Listener(e, FollowPointer(gen)) !in old(listeners) ==> SameLook()
    {
      if IsRelease(e) {
        var released := map k | k in presses :: presses[k].(active := false);
        DetachDrag(listeners, presses, dragAttached, gen, released);
        presses := released;
        listeners := listeners - DragListeners(gen);
        dragAttached := false;
      } else if Listener(e, FollowPointer(gen)) in listeners {
        var p := FollowPosition(client, initialOffset);
        style := Fixed(p.x, p.y);
        parentStyle := Collapsed;
      }
    }

    /** The 100 ms timer of press `k`.  Its release listeners go either way;
        the drag is armed only if the press is still active and the card is
        mounted (`origin` is its bounding box corner).  Arming records the
        offset, which re-runs the drag effect: the previous drag closures
        are detached and the new render's four are attached (`Arm`). */
    method TimerFires(k: nat, origin: Option<Point>, scroll: Point)
      requires Valid() && k in presses
      modifies this
      ensures Valid()
      ensures presses == old(presses) - {k} && nextPress == old(nextPress)
      ensures SameLook()
      ensures old(presses)[k].active && origin.Some? ==>
        && initialOffset == Some(DragOffset(old(presses)[k].client, origin.value, scroll))
        && moveSelected
        && gen == old(gen) + 1
        && listeners == old(listeners) - ReleaseListeners(k) - DragListeners(old(gen)) + DragListeners(gen)
      ensures !(old(presses)[k].active && origin.Some?) ==>
        SameDrag() && listeners == old(listeners) - ReleaseListeners(k)
    {
      var p := presses[k];
      ForgetPress(listeners, presses, dragAttached, gen, k);
      listeners := listeners - ReleaseListeners(k);
      presses := presses - {k};
      if p.active && origin.Some? {
        Arm(DragOffset(p.client, origin.value, scroll));
      }
    }

    /** Recording the grab offset sets `moveSelected` and re-runs the drag
        effect: the previous render's drag listeners are detached and the
        new render's four are attached. */
    method Arm(offset: Point)
      requires Valid()
      modifies this
      ensures Valid()
      ensures initialOffset == Some(offset) && moveSelected && dragAttached
      ensures gen == old(gen) + 1
      ensures listeners == old(listeners) - DragListeners(old(gen)) + DragListeners(gen)
      ensures presses == old(presses) && nextPress == old(nextPress)
      ensures SameLook()
    {
      var next := listeners - DragListeners(gen) + DragListeners(gen + 1);
      Rearm(listeners, presses, dragAttached, gen);
      initialOffset, moveSelected, listeners := Some(offset), true, next;
      gen, dragAttached := gen + 1, true;
    }

    /** `restartPosition`: disarm; if both boxes are measurable, raise the
        wrapper and schedule the spring-back and the reset. */
    method RestartPosition(measurable: bool)
      modifies this
      ensures !moveSelected && initialOffset == old(initialOffset) && gen == old(gen) && dragAttached == old(dragAttached)
      ensures SamePresses() && selected == old(selected) && style == old(style)
      ensures measurable ==>
        parentStyle == Raised && centreTimers == old(centreTimers) + 1 && resetTimers == old(resetTimers) + 1
      ensures !measurable ==>
        parentStyle == old(parentStyle) && centreTimers == old(centreTimers) && resetTimers == old(resetTimers)
    {
      moveSelected := false;
      if !measurable {
        return;
      }
      parentStyle := Raised;
      centreTimers := centreTimers + 1;
      resetTimers := resetTimers + 1;
    }

    /** `handleClick` (click or touchend, capture phase): swallowed and
        springs back iff a drag is armed; otherwise nothing happens. */
    method Click(measurable: bool) returns (swallowed: bool)
      requires Valid()
      modifies this
      ensures Valid()
      ensures swallowed == old(moveSelected)
      ensures swallowed ==>
        && !moveSelected && initialOffset == old(initialOffset) && gen == old(gen)
        && dragAttached == old(dragAttached)
        && selected == old(selected) && style == old(style)
      ensures swallowed && measurable ==>
        parentStyle == Raised && centreTimers == old(centreTimers) + 1 && resetTimers == old(resetTimers) + 1
      ensures swallowed && !measurable ==>
        parentStyle == old(parentStyle) && centreTimers == old(centreTimers) && resetTimers == old(resetTimers)
      ensures !swallowed ==> SameDrag() && SameLook()
      ensures SamePresses()
    {
      swallowed := moveSelected;
      if moveSelected {
        RestartPosition(measurable);
      }
    }

    /** The spring-back timer: the card glides to its slot. */
    method CentreTimerFires()
      requires Valid() && centreTimers > 0
      modifies this
      ensures Valid()
      ensures style == Centring && centreTimers == old(centreTimers) - 1
      ensures SameDrag() && SamePresses()
      ensures selected == old(selected) && parentStyle == old(parentStyle) && resetTimers == old(resetTimers)
    {
      style := Centring;
      centreTimers := centreTimers - 1;
    }

    /** The reset timer: both inline styles are cleared. */
    method ResetTimerFires()
      requires Valid() && resetTimers > 0
      modifies this
      ensures Valid()
      ensures style == Unstyled && parentStyle == Plain && resetTimers == old(resetTimers) - 1
      ensures SameDrag() && SamePresses()
      ensures selected == old(selected) && centreTimers == old(centreTimers)
    {
      style := Unstyled;
      parentStyle := Plain;
      resetTimers := resetTimers - 1;
    }

    /** The long-press callback selects the card. */
    method LongPress()
      requires Valid()
      modifies this
      ensures Valid()
      ensures selected
      ensures SameDrag() && SamePresses()
      ensures style == old(style) && parentStyle == old(parentStyle)
      ensures centreTimers == old(centreTimers) && resetTimers == old(resetTimers)
    {
      selected := true;
    }

    /** `setSelected`, as the edit overlay calls it. */
    method SetSelected(value: bool)
      requires Valid()
      modifies this
      ensures Valid()
      ensures selected == value
      ensures SameDrag() && SamePresses()
      ensures style == old(style) && parentStyle == old(parentStyle)
      ensures centreTimers == old(centreTimers) && resetTimers == old(resetTimers)
    {
      selected := value;
    }

    /** Unmounting runs the drag effect's cleanup: the current drag's
        listeners are detached; pending presses keep theirs until their
        timers fire. */
    method Unmount()
      requires Valid()
      modifies this
      ensures Valid()
      ensures listeners == old(listeners) - DragListeners(gen) && !dragAttached
      ensures presses == old(presses) && nextPress == old(nextPress)
      ensures moveSelected == old(moveSelected) && initialOffset == old(initialOffset) && gen == old(gen)
      ensures SameLook()
    {
      DetachDrag(listeners, presses, dragAttached, gen, presses);
      listeners := listeners - DragListeners(gen);
      dragAttached := false;
    }
  }
}
