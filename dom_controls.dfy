/** The gesture dispatcher of the canvas element: it turns wheel and mouse
    events into calls of the zoom, translate and translate-end listeners that
    the render cases registered.

    Listeners are opaque callbacks; the model names each by an identifier and
    records every invocation, in order, in the `calls` trace.  The element's
    bounding rectangle and client size, which the source reads from the DOM,
    are arguments of the handlers. */
module DomControls {
  import opened M3

  /** Identifies one registered callback. */
  type ListenerId = nat

  /** The four gestures a listener can subscribe to. */
  datatype EventKind = Zoom | Rotation | Translate | TranslateEnd

  /** One invocation of a listener with the arguments it received. */
  datatype Call =
    | ZoomCall(listener: ListenerId, zoomDelta: real)
    | RotationCall(listener: ListenerId, rotationDelta: real)
    | TranslateCall(listener: ListenerId, start: Vec2, current: Vec2)
    | TranslateEndCall(listener: ListenerId)

  /** The position of the element's top-left corner on the page and its
      client size in CSS pixels. */
  datatype Element = Element(left: real, top: real, clientWidth: real, clientHeight: real)

  predicate HasArea(el: Element)
  {
    el.clientWidth != 0.0 && el.clientHeight != 0.0
  }

  /** `getClipSpaceMousePosition`: the pointer relative to the element,
      divided by its size, stretched to -1..1 with the y axis pointing up. */
  function ClipSpaceMousePosition(el: Element, clientX: real, clientY: real): Vec2
    requires HasArea(el)
  {
    Vec2((clientX - el.left) / el.clientWidth * 2.0 - 1.0,
         (clientY - el.top) / el.clientHeight * -2.0 + 1.0)
  }

  /** The page position a clip-space point comes from. */
  function ClientPosition(el: Element, p: Vec2): Vec2
  {
    Vec2(el.left + (p.x + 1.0) / 2.0 * el.clientWidth,
         el.top + (1.0 - p.y) / 2.0 * el.clientHeight)
  }

  /** The left and right edges of the element map to x = -1 and x = 1, the
      top and bottom edges to y = 1 and y = -1. */
  lemma ClipSpaceEdges(el: Element, clientX: real, clientY: real)
    requires HasArea(el)
    ensures clientX == el.left ==> ClipSpaceMousePosition(el, clientX, clientY).x == -1.0
    ensures clientX == el.left + el.clientWidth ==> ClipSpaceMousePosition(el, clientX, clientY).x == 1.0
    ensures clientY == el.top ==> ClipSpaceMousePosition(el, clientX, clientY).y == 1.0
    ensures clientY == el.top + el.clientHeight ==> ClipSpaceMousePosition(el, clientX, clientY).y == -1.0
  {
    if clientX == el.left + el.clientWidth {
      assert clientX - el.left == el.clientWidth;
      assert (clientX - el.left) / el.clientWidth == 1.0;
    }
    if clientY == el.top + el.clientHeight {
      assert clientY - el.top == el.clientHeight;
      assert (clientY - el.top) / el.clientHeight == 1.0;
    }
  }

  /** No two pointer positions share a clip-space point: the page position
      comes back from it. */
  lemma ClipSpaceRoundTrip(el: Element, clientX: real, clientY: real)
    requires HasArea(el)
    ensures ClientPosition(el, ClipSpaceMousePosition(el, clientX, clientY)) == Vec2(clientX, clientY)
  {
    var p := ClipSpaceMousePosition(el, clientX, clientY);
    var u := (clientX - el.left) / el.clientWidth;
    var v := (clientY - el.top) / el.clientHeight;
    assert (p.x + 1.0) / 2.0 == u;
    assert (1.0 - p.y) / 2.0 == v;
    assert u * el.clientWidth == clientX - el.left;
    assert v * el.clientHeight == clientY - el.top;
  }

  /** `Math.sign` on a real (its NaN case does not arise). */
  function Sign(r: real): int
  {
    if r > 0.0 then 1 else if r < 0.0 then -1 else 0
  }

  /** The zoom step one wheel event sends: a quarter in the direction of the
      scroll, whatever its magnitude. */
  function WheelZoomDelta(deltaY: real): (d: real)
    ensures deltaY > 0.0 ==> d == 0.25
    ensures deltaY < 0.0 ==> d == -0.25
    ensures deltaY == 0.0 ==> d == 0.0
  {
    Sign(deltaY) as real * 0.25
  }

  /** The calls made by notifying each of `listeners` in order. */
  function ZoomCalls(listeners: seq<ListenerId>, zoomDelta: real): seq<Call>
  {
    seq(|listeners|, i requires 0 <= i < |listeners| => ZoomCall(listeners[i], zoomDelta))
  }

  function TranslateCalls(listeners: seq<ListenerId>, start: Vec2, current: Vec2): seq<Call>
  {
    seq(|listeners|, i requires 0 <= i < |listeners| => TranslateCall(listeners[i], start, current))
  }

  function TranslateEndCalls(listeners: seq<ListenerId>): seq<Call>
  {
    seq(|listeners|, i requires 0 <= i < |listeners| => TranslateEndCall(listeners[i]))
  }

  /** Notifying two lists of listeners one after the other is notifying
      their concatenation: the order of registration is the order of the
      calls. */
  lemma ZoomCallsAppend(a: seq<ListenerId>, b: seq<ListenerId>, zoomDelta: real)
    ensures ZoomCalls(a + b, zoomDelta) == ZoomCalls(a, zoomDelta) + ZoomCalls(b, zoomDelta)
  {
    var r, s := ZoomCalls(a + b, zoomDelta), ZoomCalls(a, zoomDelta) + ZoomCalls(b, zoomDelta);
    assert |r| == |s|;
    forall i | 0 <= i < |r|
      ensures r[i] == s[i]
    {
      if i < |a| {
        assert s[i] == ZoomCalls(a, zoomDelta)[i];
      } else {
        assert s[i] == ZoomCalls(b, zoomDelta)[i - |a|];
        assert (a + b)[i] == b[i - |a|];
      }
    }
  }

  lemma TranslateCallsAppend(a: seq<ListenerId>, b: seq<ListenerId>, start: Vec2, current: Vec2)
    ensures TranslateCalls(a + b, start, current)
         == TranslateCalls(a, start, current) + TranslateCalls(b, start, current)
  {
    var r, s := TranslateCalls(a + b, start, current),
                TranslateCalls(a, start, current) + TranslateCalls(b, start, current);
    assert |r| == |s|;
    forall i | 0 <= i < |r|
      ensures r[i] == s[i]
    {
      if i < |a| {
        assert s[i] == TranslateCalls(a, start, current)[i];
      } else {
        assert s[i] == TranslateCalls(b, start, current)[i - |a|];
        assert (a + b)[i] == b[i - |a|];
      }
    }
  }

  lemma TranslateEndCallsAppend(a: seq<ListenerId>, b: seq<ListenerId>)
    ensures TranslateEndCalls(a + b) == TranslateEndCalls(a) + TranslateEndCalls(b)
  {
    var r, s := TranslateEndCalls(a + b), TranslateEndCalls(a) + TranslateEndCalls(b);
    assert |r| == |s|;
    forall i | 0 <= i < |r|
      ensures r[i] == s[i]
    {
      if i < |a| {
        assert s[i] == TranslateEndCalls(a)[i];
      } else {
        assert s[i] == TranslateEndCalls(b)[i - |a|];
        assert (a + b)[i] == b[i - |a|];
      }
    }
  }

  /** A listener is called by a notification exactly when it is registered,
      and it receives the notification's own arguments. */
  lemma ZoomCallsReachRegistered(listeners: seq<ListenerId>, zoomDelta: real, l: ListenerId)
    ensures ZoomCall(l, zoomDelta) in ZoomCalls(listeners, zoomDelta) <==> l in listeners
  {
    var r := ZoomCalls(listeners, zoomDelta);
    if l in listeners {
      var i :| 0 <= i < |listeners| && listeners[i] == l;
      assert r[i] == ZoomCall(l, zoomDelta);
    }
  }

  lemma TranslateCallsReachRegistered(listeners: seq<ListenerId>, start: Vec2, current: Vec2,
                                      l: ListenerId)
    ensures TranslateCall(l, start, current) in TranslateCalls(listeners, start, current)
            <==> l in listeners
  {
    var r := TranslateCalls(listeners, start, current);
    if l in listeners {
      var i :| 0 <= i < |listeners| && listeners[i] == l;
      assert r[i] == TranslateCall(l, start, current);
    }
  }

  lemma TranslateEndCallsReachRegistered(listeners: seq<ListenerId>, l: ListenerId)
    ensures TranslateEndCall(l) in TranslateEndCalls(listeners) <==> l in listeners
  {
    var r := TranslateEndCalls(listeners);
    if l in listeners {
      var i :| 0 <= i < |listeners| && listeners[i] == l;
      assert r[i] == TranslateEndCall(l);
    }
  }

  /** True when no call in the trace went to a rotation listener. */
  predicate NoRotationCalls(calls: seq<Call>)
  {
    forall i :: 0 <= i < |calls| ==> !calls[i].RotationCall?
  }

  /** The state `useDomControls` keeps for one element. */
  class Controls {
    var dragging: bool
    var dragStartPoint: Vec2
    var zoomListeners: seq<ListenerId>
    var rotationListeners: seq<ListenerId>
    var translateListeners: seq<ListenerId>
    var translateEndListeners: seq<ListenerId>
    var calls: seq<Call>

    /** The start point is the origin whenever no drag is in progress, and
        no handler has ever called a rotation listener. */
    predicate Valid()
      reads this
    {
      && (!dragging ==> dragStartPoint == Vec2(0.0, 0.0))
      && NoRotationCalls(calls)
    }

    constructor()
      ensures Valid()
      ensures !dragging && dragStartPoint == Vec2(0.0, 0.0)
      ensures zoomListeners == [] && rotationListeners == []
      ensures translateListeners == [] && translateEndListeners == []
      ensures calls == []
    {
      dragging := false;
      dragStartPoint := Vec2(0.0, 0.0);
      zoomListeners := [];
      rotationListeners := [];
      translateListeners := [];
      translateEndListeners := [];
      calls := [];
    }

    /** Every zoom listener, in registration order, receives the zoom step
        of the wheel event. */
    method OnWheel(deltaY: real)
      requires Valid()
      modifies this
      ensures Valid()
      ensures calls == old(calls) + ZoomCalls(zoomListeners, WheelZoomDelta(deltaY))
      ensures dragging == old(dragging) && dragStartPoint == old(dragStartPoint)
      ensures zoomListeners == old(zoomListeners) && rotationListeners == old(rotationListeners)
      ensures translateListeners == old(translateListeners)
      ensures translateEndListeners == old(translateEndListeners)
    {
      var zoomDelta := Sign(deltaY) as real * 0.25;
      var listeners, trace := zoomListeners, calls;
      for i := 0 to |listeners|
        invariant trace == calls + ZoomCalls(listeners[..i], zoomDelta)
        invariant NoRotationCalls(trace)
      {
        assert ZoomCalls(listeners[..i + 1], zoomDelta)
            == ZoomCalls(listeners[..i], zoomDelta) + [ZoomCall(listeners[i], zoomDelta)] by {
          assert listeners[..i + 1] == listeners[..i] + [listeners[i]];
          ZoomCallsAppend(listeners[..i], [listeners[i]], zoomDelta);
        }
        trace := trace + [ZoomCall(listeners[i], zoomDelta)];
      }
      assert listeners[..|listeners|] == listeners;
      calls := trace;
    }

    /** A button press starts a drag at the pointer's clip-space position. */
    method OnMouseDown(el: Element, clientX: real, clientY: real)
      requires Valid() && HasArea(el)
      modifies this
      ensures Valid()
      ensures dragging && dragStartPoint == ClipSpaceMousePosition(el, clientX, clientY)
      ensures calls == old(calls)
      ensures zoomListeners == old(zoomListeners) && rotationListeners == old(rotationListeners)
      ensures translateListeners == old(translateListeners)
      ensures translateEndListeners == old(translateEndListeners)
    {
      dragging := true;
      dragStartPoint := ClipSpaceMousePosition(el, clientX, clientY);
    }

    /** Releasing the button ends a drag in progress: the start point is
        reset and every translate-end listener is told, in order.  Without a
        drag nothing happens. */
    method OnMouseUp()
      requires Valid()
      modifies this
      ensures Valid()
      ensures !dragging && dragStartPoint == Vec2(0.0, 0.0)
      ensures calls == if old(dragging) then old(calls) + TranslateEndCalls(translateEndListeners)
                       else old(calls)
      ensures zoomListeners == old(zoomListeners) && rotationListeners == old(rotationListeners)
      ensures translateListeners == old(translateListeners)
      ensures translateEndListeners == old(translateEndListeners)
    {
      if !dragging {
        return;
      }
      dragging := false;
      dragStartPoint := Vec2(0.0, 0.0);
      var listeners, trace := translateEndListeners, calls;
      for i := 0 to |listeners|
        invariant trace == calls + TranslateEndCalls(listeners[..i])
        invariant NoRotationCalls(trace)
      {
        assert TranslateEndCalls(listeners[..i + 1])
            == TranslateEndCalls(listeners[..i]) + [TranslateEndCall(listeners[i])] by {
          assert listeners[..i + 1] == listeners[..i] + [listeners[i]];
          TranslateEndCallsAppend(listeners[..i], [listeners[i]]);
        }
        trace := trace + [TranslateEndCall(listeners[i])];
      }
      assert listeners[..|listeners|] == listeners;
      calls := trace;
    }

    /** While dragging, every translate listener receives the start point
        and the pointer's current clip-space position; otherwise nothing
        happens. */
    method OnMouseMove(el: Element, clientX: real, clientY: real)
      requires Valid() && HasArea(el)
      modifies this
      ensures Valid()
      ensures calls == if old(dragging)
                       then old(calls) + TranslateCalls(translateListeners, dragStartPoint,
                                                        ClipSpaceMousePosition(el, clientX, clientY))
                       else old(calls)
      ensures dragging == old(dragging) && dragStartPoint == old(dragStartPoint)
      ensures zoomListeners == old(zoomListeners) && rotationListeners == old(rotationListeners)
      ensures translateListeners == old(translateListeners)
      ensures translateEndListeners == old(translateEndListeners)
    {
      if !dragging {
        return;
      }
      var current := ClipSpaceMousePosition(el, clientX, clientY);
      var listeners, trace := translateListeners, calls;
      for i := 0 to |listeners|
        invariant trace == calls + TranslateCalls(listeners[..i], dragStartPoint, current)
        invariant NoRotationCalls(trace)
      {
        assert TranslateCalls(listeners[..i + 1], dragStartPoint, current)
            == TranslateCalls(listeners[..i], dragStartPoint, current)
               + [TranslateCall(listeners[i], dragStartPoint, current)] by {
          assert listeners[..i + 1] == listeners[..i] + [listeners[i]];
          TranslateCallsAppend(listeners[..i], [listeners[i]], dragStartPoint, current);
        }
        trace := trace + [TranslateCall(listeners[i], dragStartPoint, current)];
      }
      assert listeners[..|listeners|] == listeners;
      calls := trace;
    }

    /** `on(event, listener)` appends the listener to that event's list
        only. */
    method On(event: EventKind, listener: ListenerId)
      requires Valid()
      modifies this
      ensures Valid()
      ensures zoomListeners == old(zoomListeners) + (if event == Zoom then [listener] else [])
      ensures rotationListeners == old(rotationListeners) + (if event == Rotation then [listener] else [])
      ensures translateListeners == old(translateListeners) + (if event == Translate then [listener] else [])
      ensures translateEndListeners
           == old(translateEndListeners) + (if event == TranslateEnd then [listener] else [])
      ensures dragging == old(dragging) && dragStartPoint == old(dragStartPoint)
      ensures calls == old(calls)
    {
      match event
      case Zoom => zoomListeners := zoomListeners + [listener];
      case Rotation => rotationListeners := rotationListeners + [listener];
      case Translate => translateListeners := translateListeners + [listener];
      case TranslateEnd => translateEndListeners := translateEndListeners + [listener];
    }

    /** `off()` forgets every listener of every event. */
    method Off()
      requires Valid()
      modifies this
      ensures Valid()
      ensures zoomListeners == [] && rotationListeners == []
      ensures translateListeners == [] && translateEndListeners == []
      ensures dragging == old(dragging) && dragStartPoint == old(dragStartPoint)
      ensures calls == old(calls)
    {
      zoomListeners := [];
      translateListeners := [];
      rotationListeners := [];
      translateEndListeners := [];
    }
  }

  /** A zoom listener registered with `on` is called by the next wheel
      event after every listener registered before it. */
  method RegisterThenWheel(controls: Controls, listener: ListenerId, deltaY: real)
    requires controls.Valid()
    modifies controls
    ensures controls.Valid()
    ensures controls.calls
         == old(controls.calls) + ZoomCalls(old(controls.zoomListeners), WheelZoomDelta(deltaY))
            + [ZoomCall(listener, WheelZoomDelta(deltaY))]
  {
    controls.On(Zoom, listener);
    controls.OnWheel(deltaY);
    ZoomCallsAppend(old(controls.zoomListeners), [listener], WheelZoomDelta(deltaY));
  }
}
