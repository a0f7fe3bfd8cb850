/** The canvas (`CanvasScene` and `CanvasView`): the board of cards, the stepped
    wheel zoom, card creation by double-click and the middle-button press.
    The view's transform is kept as an integer exponent of the zoom step 1.08;
    the point under the cursor, which `mapToScene` computes, is an input. */
module Canvas {
  import opened Grid
  import opened Cards

  datatype Option<T> = None | Some(value: T)

  datatype MouseButton = LeftButton | RightButton | MiddleButton | BackButton | ForwardButton

  /** The view's drag modes used by the canvas. */
  datatype DragMode = NoDrag | RubberBandDrag

  /** `_zoom` stays inside `ZOOM_LOW < _zoom < ZOOM_HIGH` for the view to rescale. */
  const ZOOM_LOW: int := -15
  const ZOOM_HIGH: int := 40

  /** The wheel counter `_zoom`, and the view's scale as a power of 1.08: the
      number of zoom-in steps applied minus the number of zoom-out steps applied. */
  datatype Zoom = Zoom(counter: int, scaleExp: int)

  predicate InZoomRange(counter: int) {
    ZOOM_LOW < counter < ZOOM_HIGH
  }

  /** `wheelEvent`: the counter moves one notch (up only for a positive vertical
      delta); the view is scaled by the matching factor only if the moved counter
      is inside the range. */
  function WheelStep(z: Zoom, deltaY: int): Zoom {
    var step := if deltaY > 0 then 1 else -1;
    var counter := z.counter + step;
    Zoom(counter, if InZoomRange(counter) then z.scaleExp + step else z.scaleExp)
  }

  /** A run of wheel events. */
  function Scroll(z: Zoom, deltas: seq<int>): Zoom
    decreases |deltas|
  {
    if deltas == [] then z else Scroll(WheelStep(z, deltas[0]), deltas[1..])
  }

  /** Zoom-in notches minus the other notches (a zero delta counts as zoom-out). */
  function Net(deltas: seq<int>): int {
    if deltas == [] then 0 else (if deltas[0] > 0 then 1 else -1) + Net(deltas[1..])
  }

  /** One wheel event moves the counter by exactly one, up for a positive vertical
      delta and down otherwise (a purely horizontal scroll included); the scale
      moves the same way exactly when the new counter is inside the range, and
      stays put otherwise. */
  lemma WheelEffect(z: Zoom, deltaY: int)
    ensures deltaY > 0 ==> WheelStep(z, deltaY).counter == z.counter + 1
    ensures deltaY <= 0 ==> WheelStep(z, deltaY).counter == z.counter - 1
    ensures InZoomRange(WheelStep(z, deltaY).counter) <==>
              WheelStep(z, deltaY).scaleExp - z.scaleExp == WheelStep(z, deltaY).counter - z.counter
    ensures !InZoomRange(WheelStep(z, deltaY).counter) <==>
              WheelStep(z, deltaY).scaleExp == z.scaleExp
  {
  }

  /** The counter is never clamped: after any run of wheel events it has moved by
      exactly the net number of notches. */
  lemma {:induction false} ScrollCounter(z: Zoom, deltas: seq<int>)
    ensures Scroll(z, deltas).counter == z.counter + Net(deltas)
    decreases |deltas|
  {
    if deltas != [] {
      ScrollCounter(WheelStep(z, deltas[0]), deltas[1..]);
    }
  }

  /** While every counter value a run of wheel events passes through lies inside
      the range, counter and scale move in lockstep: `scaleExp - counter` is kept.
      From the initial view this means the scale is exactly 1.08 to the counter. */
  lemma {:induction false} ScrollKeepsOffsetWhileInside(z: Zoom, deltas: seq<int>)
    requires forall i :: 0 <= i <= |deltas| ==> InZoomRange(Scroll(z, deltas[..i]).counter)
    ensures Scroll(z, deltas).scaleExp - Scroll(z, deltas).counter == z.scaleExp - z.counter
    decreases |deltas|
  {
    if deltas != [] {
      var z1 := WheelStep(z, deltas[0]);
      assert deltas[..1] == [deltas[0]];
      assert Scroll(z, [deltas[0]]) == z1;
      forall i | 0 <= i <= |deltas[1..]|
        ensures InZoomRange(Scroll(z1, deltas[1..][..i]).counter)
      {
        assert deltas[..i + 1] == [deltas[0]] + deltas[1..][..i];
        assert Scroll(z, deltas[..i + 1]) == Scroll(z1, deltas[1..][..i]);
      }
      ScrollKeepsOffsetWhileInside(z1, deltas[1..]);
    }
  }

  /** `n` copies of one delta. */
  function Notches(deltaY: int, n: nat): (r: seq<int>)
    ensures |r| == n
    ensures forall i :: 0 <= i < n ==> r[i] == deltaY
  {
    if n == 0 then [] else [deltaY] + Notches(deltaY, n - 1)
  }

  /** Wheel events that all stay inside the range move counter and scale together. */
  lemma {:induction false} ScrollUpInside(z: Zoom, n: nat)
    requires ZOOM_LOW <= z.counter && z.counter + n < ZOOM_HIGH
    ensures Scroll(z, Notches(1, n)) == Zoom(z.counter + n, z.scaleExp + n)
    decreases n
  {
    if n > 0 {
      assert Notches(1, n)[1..] == Notches(1, n - 1);
      ScrollUpInside(WheelStep(z, 1), n - 1);
    }
  }

  /** Scrolling in 40 notches from the start, then out one, leaves the counter at 39
      but the view one step below 1.08^39: counter and scale have drifted apart. */
  lemma DriftAfterOvershoot()
    ensures Scroll(Zoom(0, 0), Notches(1, 40)) == Zoom(40, 39)
    ensures Scroll(Zoom(0, 0), Notches(1, 40) + [-120]) == Zoom(39, 38)
  {
    assert Notches(1, 40) == Notches(1, 39) + [1];
    ScrollUpInside(Zoom(0, 0), 39);
    ScrollAppend(Zoom(0, 0), Notches(1, 39), [1]);
    ScrollAppend(Zoom(0, 0), Notches(1, 40), [-120]);
  }

  /** `k` rounds of one notch out then one notch in. */
  function OutIn(k: nat): (r: seq<int>)
    ensures |r| == 2 * k
  {
    if k == 0 then [] else [-120, 120] + OutIn(k - 1)
  }

  /** At the upper bound, rocking the wheel out and in keeps the counter at 40 while
      the scale drops one step per round: the scale is not bounded below. */
  lemma {:induction false} RockingAtUpperBound(scaleExp: int, k: nat)
    ensures Scroll(Zoom(ZOOM_HIGH, scaleExp), OutIn(k)) == Zoom(ZOOM_HIGH, scaleExp - k)
    decreases k
  {
    if k > 0 {
      var z := Zoom(ZOOM_HIGH, scaleExp);
      assert OutIn(k)[1..][1..] == OutIn(k - 1);
      assert Scroll(z, OutIn(k)) == Scroll(Zoom(ZOOM_HIGH, scaleExp - 1), OutIn(k - 1));
      RockingAtUpperBound(scaleExp - 1, k - 1);
    }
  }

  /** Running wheel events one after another. */
  lemma {:induction false} ScrollAppend(z: Zoom, first: seq<int>, rest: seq<int>)
    ensures Scroll(z, first + rest) == Scroll(Scroll(z, first), rest)
    decreases |first|
  {
    if first != [] {
      assert (first + rest)[1..] == first[1..] + rest;
      ScrollAppend(WheelStep(z, first[0]), first[1..], rest);
    } else {
      assert first + rest == rest;
    }
  }

  /** A board card: position, type and editing state. */
  datatype CardRecord = CardRecord(pos: Point, kind: CardType, state: CardState)

  /** The input the canvas reacts to. `scenePos` is the double-click point after
      `mapToScene`; `pick` is the index `random.choice` draws for the new card's
      placeholder; `ToolSelected` is the bottom bar writing `current_card_type`. */
  datatype Event =
    | Wheel(deltaY: int)
    | DoubleClick(button: MouseButton, scenePos: Point, pick: nat)
    | Press(button: MouseButton, viewPos: Point)
    | ToolSelected(cardType: CardType)

  predicate WellFormed(e: Event) {
    e.DoubleClick? ==> e.pick < |PLACEHOLDER_TEXTS|
  }

  /** The view's own state: zoom, drag mode, `_pan_start` (absent until the first
      middle press) and `current_card_type`. */
  datatype View = View(zoom: Zoom, dragMode: DragMode, panStart: Option<Point>, cardType: CardType)

  /** The state `CanvasView.__init__` leaves. */
  function InitialView(): View {
    View(Zoom(0, 0), RubberBandDrag, None, Text)
  }

  /** The effect of one event on the view. A double-click and presses of other
      buttons leave the view alone (they go to the toolkit's default handling). */
  function Step(v: View, e: Event): View {
    match e
    case Wheel(deltaY) => v.(zoom := WheelStep(v.zoom, deltaY))
    case DoubleClick(_, _, _) => v
    case Press(button, p) =>
      if button == MiddleButton then v.(dragMode := NoDrag, panStart := Some(p)) else v
    case ToolSelected(t) => v.(cardType := t)
  }

  /** The cards one event appends to the board: one for a left double-click, at the
      mapped point exactly (no snapping) and of the current type; none otherwise. */
  function NewCards(v: View, e: Event): (cs: seq<CardRecord>)
    requires WellFormed(e)
    ensures |cs| <= 1
  {
    match e
    case DoubleClick(button, p, pick) =>
      if button == LeftButton then [CardRecord(p, v.cardType, Initial(PLACEHOLDER_TEXTS[pick]))] else []
    case _ => []
  }

  function Run(v: View, es: seq<Event>): View
    decreases |es|
  {
    if es == [] then v else Run(Step(v, es[0]), es[1..])
  }

  /** The cards a run of events creates, oldest first. */
  function Created(v: View, es: seq<Event>): seq<CardRecord>
    requires forall i :: 0 <= i < |es| ==> WellFormed(es[i])
    decreases |es|
  {
    if es == [] then [] else NewCards(v, es[0]) + Created(Step(v, es[0]), es[1..])
  }

  function LeftDoubleClicks(es: seq<Event>): nat {
    if es == [] then 0
    else (if es[0].DoubleClick? && es[0].button == LeftButton then 1 else 0) + LeftDoubleClicks(es[1..])
  }

  /** Every left double-click creates exactly one card, wherever it lands, and no
      other event creates one. */
  lemma {:induction false} CreatedCount(v: View, es: seq<Event>)
    requires forall i :: 0 <= i < |es| ==> WellFormed(es[i])
    ensures |Created(v, es)| == LeftDoubleClicks(es)
    decreases |es|
  {
    if es != [] {
      CreatedCount(Step(v, es[0]), es[1..]);
    }
  }

  /** A further event only appends to the board: earlier cards and their order stay. */
  lemma {:induction false} CreatedAppend(v: View, es: seq<Event>, e: Event)
    requires forall i :: 0 <= i < |es| ==> WellFormed(es[i])
    requires WellFormed(e)
    ensures Created(v, es + [e]) == Created(v, es) + NewCards(Run(v, es), e)
    decreases |es|
  {
    if es != [] {
      assert (es + [e])[1..] == es[1..] + [e];
      CreatedAppend(Step(v, es[0]), es[1..], e);
    }
  }

  /** A left double-click creates a card at exactly the mapped point, with the
      current card type and a placeholder drawn from the phrases. */
  lemma NewCardAtPoint(v: View, p: Point, pick: nat)
    requires pick < |PLACEHOLDER_TEXTS|
    ensures var cs := NewCards(v, DoubleClick(LeftButton, p, pick));
      |cs| == 1 && cs[0].pos == p && cs[0].kind == v.cardType &&
      cs[0].state.isPlaceholder && cs[0].state.text == PLACEHOLDER_TEXTS[pick] &&
      cs[0].state.tone == Hint && Valid(cs[0].state)
  {
  }

  /** Nothing restores the drag mode: once a middle press switched off rubber-band
      dragging it stays off. */
  lemma {:induction false} NoDragSticks(v: View, es: seq<Event>)
    requires v.dragMode == NoDrag
    ensures Run(v, es).dragMode == NoDrag
    decreases |es|
  {
    if es != [] {
      NoDragSticks(Step(v, es[0]), es[1..]);
    }
  }

  /** The zoom part of a run of events is the run of its wheel events alone. */
  function WheelDeltas(es: seq<Event>): seq<int> {
    if es == [] then []
    else (if es[0].Wheel? then [es[0].deltaY] else []) + WheelDeltas(es[1..])
  }

  lemma {:induction false} RunZoom(v: View, es: seq<Event>)
    ensures Run(v, es).zoom == Scroll(v.zoom, WheelDeltas(es))
    decreases |es|
  {
    if es != [] {
      RunZoom(Step(v, es[0]), es[1..]);
      var ws, rest := WheelDeltas(es), WheelDeltas(es[1..]);
      if es[0].Wheel? {
        assert ws == [es[0].deltaY] + rest;
        assert ws[0] == es[0].deltaY && ws[1..] == rest;
      } else {
        assert ws == rest;
      }
    }
  }

  /** A card's record as the board shows it. */
  function Record(c: Card): CardRecord
    reads c
  {
    CardRecord(c.pos, c.kind, c.State())
  }

  /** `CanvasScene`: the board holds its cards in insertion order. */
  class CanvasScene {
    var items: seq<Card>

    constructor ()
      ensures items == []
    {
      items := [];
    }

    /** `create_card`: one new card at exactly `p`, appended after the others. */
    method CreateCard(p: Point, cardType: CardType, pick: nat)
      requires pick < |PLACEHOLDER_TEXTS|
      modifies this
      ensures |items| == |old(items)| + 1 && items[..|old(items)|] == old(items)
      ensures fresh(items[|items| - 1])
      ensures Record(items[|items| - 1]) == CardRecord(p, cardType, Initial(PLACEHOLDER_TEXTS[pick]))
    {
      var card := new Card(p, cardType, pick);
      items := items + [card];
      assert items[..|old(items)|] == old(items);
    }
  }

  /** `CanvasView`. */
  class CanvasView {
    const scene: CanvasScene
    var currentCardType: CardType
    var zoom: int
    var scaleExp: int
    var dragMode: DragMode
    var panStart: Option<Point>

    function Model(): View
      reads this
    {
      View(Zoom(zoom, scaleExp), dragMode, panStart, currentCardType)
    }

    constructor ()
      ensures Model() == InitialView()
      ensures fresh(scene) && scene.items == []
    {
      scene := new CanvasScene();
      currentCardType := Text;
      zoom := 0;
      scaleExp := 0;
      dragMode := RubberBandDrag;
      panStart := None;
    }

    /** `wheelEvent`. */
    method WheelEvent(deltaY: int)
      modifies this
      ensures Model() == Step(old(Model()), Wheel(deltaY))
    {
      var step;
      if deltaY > 0 {
        step := 1;
        zoom := zoom + 1;
      } else {
        step := -1;
        zoom := zoom - 1;
      }
      if ZOOM_LOW < zoom < ZOOM_HIGH {
        scaleExp := scaleExp + step;
      }
    }

    /** `mouseDoubleClickEvent`: `scenePos` is `mapToScene` of the click. */
    method MouseDoubleClickEvent(button: MouseButton, scenePos: Point, pick: nat)
      requires pick < |PLACEHOLDER_TEXTS|
      modifies scene
      ensures Model() == old(Model())
      ensures var added := NewCards(old(Model()), DoubleClick(button, scenePos, pick));
        && |scene.items| == |old(scene.items)| + |added|
        && scene.items[..|old(scene.items)|] == old(scene.items)
        && (added != [] ==> fresh(scene.items[|scene.items| - 1]) &&
                            Record(scene.items[|scene.items| - 1]) == added[0])
    {
      if button == LeftButton {
        scene.CreateCard(scenePos, currentCardType, pick);
      }
    }

    /** `mousePressEvent`: a middle press leaves rubber-band mode and records the
        press point; other presses go to the toolkit. */
    method MousePressEvent(button: MouseButton, viewPos: Point)
      modifies this
      ensures Model() == Step(old(Model()), Press(button, viewPos))
    {
      if button == MiddleButton {
        dragMode := NoDrag;
        panStart := Some(viewPos);
      }
    }
  }
}
