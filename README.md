# infinityu canvas core in Dafny

infinityu is a PySide6 note board: a welcome screen opens an "infinite" canvas on
which a left double-click drops a 220×140 card holding editable text, cards snap
to a 15-unit grid while dragged, the mouse wheel zooms in steps of 1.08, and a
bottom bar chooses the type of the next card. This project models the sequential
logic under the Qt code of `main.py` and proves what it does:

- `grid.dfy` (module `Grid`): `CanvasCard.itemChange`, the snap of every proposed
  position to `round(v / 15) * 15` on each axis, on integer coordinates, with
  Python's round-half-to-even written out.
- `background.dfy` (module `Background`): the dot coordinates of
  `CanvasScene.drawBackground`, as a function and as the nested loops of the source.
- `cards.dfy` (module `Cards`): `PLACEHOLDER_TEXTS`, `CardType`, Python's
  `str.strip()`, the placeholder/editing state machine of `CanvasCard` as pure
  functions over `CardState`, and the class `Card` whose methods are specified by
  them.
- `canvas.dfy` (module `Canvas`): the wheel counter `_zoom` and the view scale (an
  integer exponent of 1.08), card creation by left double-click, the middle-button
  press, an event-by-event model of the view, and the classes `CanvasScene` and
  `CanvasView`.
- `toolbar.dfy` (module `Toolbar`): `BottomBar` with its three checkable buttons and
  `set_type`.

What the proofs establish, in the program's terms:

- A snapped coordinate is a multiple of 15 within 7 of the proposed one. It is the
  unique such multiple and the nearest grid line. Snapping is idempotent and monotone.
  Integers never hit a rounding tie, because 15 is odd. 7 snaps to 0 and 13 to 15.
- The background dots are exactly the grid points from the grid line at or below
  the exposed rectangle's left/top edge up to, and not including, its right/bottom
  edge. The first column is the greatest grid line at or below the left edge. The
  nested loops emit exactly those dots, column by column.
- A new card shows its randomly chosen placeholder in the hint tone. Focus-in
  clears a placeholder card to empty text in the active tone and leaves a card
  with user text alone. Focus-out with blank text (Python's whitespace set) brings
  the placeholder back; with any other text it changes nothing. The placeholder
  phrase never changes. Both focus handlers are idempotent. A focus visit without
  typing restores an unfocused card exactly, whether it showed its placeholder or
  user text. The invariant "showing the placeholder ⇒ text is the phrase, hint
  tone, no focus; otherwise active tone, and non-blank text when unfocused" holds
  from creation through every focus change and every edit made while focused.
- Each wheel event moves `_zoom` by exactly ±1 (−1 for a zero delta too); the view
  scales, in the same direction, exactly when the new counter lies strictly between
  −15 and 40. The counter is never clamped. While it stays inside the range, counter
  and scale move in lockstep. After overshooting, they drift apart: 40 notches in
  and one out leave the counter at 39 but the scale at 1.08^38. Rocking the wheel
  at the upper bound lowers the scale one step per round without limit.
- A left double-click appends exactly one card at exactly the mapped scene point
  (no snapping at creation), with the current card type. Earlier cards and their
  order are unchanged. Other buttons create nothing. The number of cards equals the
  number of left double-clicks. A middle press switches the view to `NoDrag` for
  good: nothing restores rubber-band dragging.
- After `set_type(t)` the canvas's card type is `t` and exactly one tool button is
  checked, the one for `t`.

Some consequences of the code worth spelling out:
- `round(7/15)` is 0, so the drag path (7,7) → (13,13) → (16,16) shows (0,0),
  (15,15), (15,15).
- Zoom is the stepped counter `_zoom` with the open range (−15, 40) and step 1.08;
  the scale itself is never clamped.
- A left double-click on an existing card still creates a new card: the view
  handles the event before any card sees it.
- The board is the scene's ordered item list.
- Middle-button panning does not work; see "Left out".

## Model

| member | source | states |
|---|---|---|
| `Grid.RoundDiv` | main.py:162-163 | `round(v / 15)` lies within half a step of `v / 15`, and a tie goes to the even integer |
| `Grid.Snap` | main.py:161-163 | a snapped coordinate is a multiple of 15 within 7 of the input |
| `Grid.SnapPoint` | main.py:158-164 | the position `itemChange` returns is grid-aligned on both axes, within 7 of the proposed one on each |
| `Grid.NoTies` | main.py:161-163 | an integer is never halfway between grid lines, so ties-to-even never decides |
| `Grid.SnapUnique` | main.py:161-163 | any multiple of 15 within 7 of the input is the snapped value |
| `Grid.SnapNearest` | main.py:161-163 | no grid line is closer to the input than the snapped value |
| `Grid.SnapIdempotent` | main.py:161-163 | grid-aligned values are unchanged; snapping twice equals snapping once |
| `Grid.SnapMonotone` | main.py:161-163 | a larger proposed coordinate never snaps to a smaller grid line |
| `Grid.DragScenario` | main.py:158-164 | the drag path (7,7), (13,13), (16,16) snaps to (0,0), (15,15), (15,15); negative values round the same way |
| `Background.GridStart` | main.py:194-195 | the first dot coordinate is a multiple of 15 at most one step below the edge |
| `Background.GridStartGreatest` | main.py:194-195 | the first dot coordinate is the greatest multiple of 15 at or below the edge |
| `Background.RangeElements` | main.py:197-198 | `range(start, stop, 15)` has the ceiling of `(stop - start) / 15` elements, the i-th being `start + 15 i` |
| `Background.ConsecutiveStep` | main.py:197-198 | consecutive dot coordinates are 15 apart |
| `Background.RangeMembers` | main.py:194-198 | an axis emits exactly the multiples of 15 in `[first, stop)` |
| `Background.ColumnElements` | main.py:198-199 | the inner loop's dots are the column's x with each row coordinate in order |
| `Background.DrawColumn` | main.py:198-199 | the inner loop emits exactly the column's dots, top to bottom |
| `Background.LatticeMembers` | main.py:197-199 | a point is drawn iff its x is an emitted column and its y an emitted row |
| `Background.GridDotsMembers` | main.py:194-199 | the dots for a rectangle are exactly the grid points in `[first x, right) × [first y, bottom)` |
| `Background.DrawBackground` | main.py:194-199 | the nested loops emit exactly the dot lattice, column by column |
| `Cards.CardType.Value` | main.py:29-32 | the card types are numbered 1 to 3 |
| `Cards.StripLeadingSpec` | main.py:147 | `lstrip` removes exactly a whitespace prefix and stops at a non-space |
| `Cards.StripTrailingSpec` | main.py:147 | `rstrip` removes exactly a whitespace suffix and stops at a non-space |
| `Cards.StripEmptyIff` | main.py:147 | `not text.strip()` holds iff the text is empty or whitespace only |
| `Cards.PlaceholdersNotBlank` | main.py:20-27 | every placeholder phrase has a non-whitespace character |
| `Cards.InitialValid` | main.py:132-135 | a new card shows its chosen phrase as placeholder, in the hint tone, and is valid |
| `Cards.FocusInEffect` | main.py:140-144 | focus-in on a placeholder card empties the text, sets the active tone, clears `is_placeholder`; on other cards only focus changes; the phrase is kept; validity is kept |
| `Cards.FocusOutEffect` | main.py:146-153 | focus-out with blank text sets `is_placeholder` and restores the phrase in the hint tone; with non-blank text nothing but focus changes; validity is kept |
| `Cards.EditEffect` | main.py:121-122 | typing into the focused card replaces its text and keeps the card valid and its phrase |
| `Cards.FocusIdempotent` | main.py:140-153 | two focus-ins equal one; two focus-outs equal one |
| `Cards.FocusRoundTrip` | main.py:140-153 | focusing any valid unfocused card and leaving without typing restores its exact state |
| `Cards.EditSession` | main.py:140-153 | after focus, typing `t`, focus loss: blank `t` gives back the placeholder in the hint tone; other `t` stays as active text |
| `Cards.Card.constructor` | main.py:111-135 | a card is created at exactly the given position with its type and the initial placeholder state |
| `Cards.Card.ApplyPlaceholder` | main.py:151-153 | shows the phrase in the hint tone; nothing else changes |
| `Cards.Card.FocusIn` | main.py:140-144 | the new state is `FocusedIn` of the old one and stays valid; the position is unchanged |
| `Cards.Card.FocusOut` | main.py:146-149 | the new state is `FocusedOut` of the old one and stays valid; the position is unchanged |
| `Cards.Card.Edit` | main.py:121-122 | the new state is the old one with the typed text and stays valid |
| `Cards.Card.ItemPositionChange` | main.py:158-166 | the stored position is the snapped proposed position |
| `Canvas.WheelEffect` | main.py:222-233 | a wheel event moves `_zoom` by +1 for a positive delta and −1 otherwise; the scale moves the same way iff the new counter is in (−15, 40), else stays |
| `Canvas.ScrollCounter` | main.py:225-230 | the counter is never clamped: it moves by the net number of notches |
| `Canvas.ScrollKeepsOffsetWhileInside` | main.py:222-233 | while every counter value stays inside the range, counter and scale move in lockstep |
| `Canvas.ScrollUpInside` | main.py:222-233 | zoom-in notches that stay inside the range raise counter and scale together |
| `Canvas.DriftAfterOvershoot` | main.py:222-233 | 40 notches in then one out leave the counter at 39 and the scale at 1.08^38 |
| `Canvas.RockingAtUpperBound` | main.py:222-233 | at counter 40, each out-in round lowers the scale by one step while the counter returns to 40: the scale is unbounded |
| `Canvas.NewCards` | main.py:235-241 | an event adds at most one card |
| `Canvas.NewCardAtPoint` | main.py:181-183 | a left double-click adds one card at exactly the mapped point, unsnapped, with the current type and a placeholder phrase in the hint tone |
| `Canvas.CreatedCount` | main.py:235-241 | the number of cards created equals the number of left double-clicks |
| `Canvas.CreatedAppend` | main.py:181-183 | each event only appends to the board; earlier cards and their order are unchanged |
| `Canvas.NoDragSticks` | main.py:243-247 | once a middle press set `NoDrag`, no event restores rubber-band dragging |
| `Canvas.RunZoom` | main.py:222-233 | only wheel events change the zoom state, in their order |
| `Canvas.CanvasScene.constructor` | main.py:177-179 | a new scene has no cards |
| `Canvas.CanvasScene.CreateCard` | main.py:181-183 | appends one fresh card at exactly `p` with the given type, keeping earlier cards |
| `Canvas.CanvasView.constructor` | main.py:203-220 | the view starts with `_zoom` 0, scale 1, rubber-band dragging, card type TEXT and an empty scene |
| `Canvas.CanvasView.WheelEvent` | main.py:222-233 | the view's new state is `Step` of the old one for the wheel event |
| `Canvas.CanvasView.MouseDoubleClickEvent` | main.py:235-241 | a left double-click appends the card `NewCards` describes; other buttons leave the scene; the view state is unchanged |
| `Canvas.CanvasView.MousePressEvent` | main.py:243-249 | a middle press sets `NoDrag` and records the press point; other presses change nothing modelled |
| `Toolbar.ToolFlags` | main.py:401-410 | of the three check flags `set_type` leaves, a button's flag is set iff the button's type is the chosen one |
| `Toolbar.ExactlyOneChecked` | main.py:401-410 | exactly one button is checked, the one for the chosen type |
| `Toolbar.BottomBar.constructor` | main.py:384-392 | the bar starts with only the text button checked |
| `Toolbar.BottomBar.SetType` | main.py:398-410 | the canvas's card type becomes `t`; all flags are cleared, then only `t`'s button is checked |
| `Toolbar.BottomBar.Click` | main.py:394-396 | whatever the button's previous check state, a click ends with only that button checked and its type on the canvas |

## Left out

- Cards.Card.Edit: only edits that arrive while the text item has focus are modelled; text dropped onto an unfocused card by drag-and-drop (which the toolkit's text interaction may accept) is not, nor the wipe of such text by the next focus-in.
- Grid.Snap: coordinates are integers; Qt positions are floating point, and for non-integer values Python's `round` can tie (e.g. 7.5 / 15 = 0.5 rounds to 0).
- Background.DrawBackground: the exposed rectangle's edges are taken after Python's `int(...)` truncation toward zero; the floating-point rectangle and the truncation are not modelled.
- The view transform: `self.scale` and the `AnchorUnderMouse` translation are floating-point matrix operations; the scale is kept as the integer exponent of 1.08. `mapToScene` is replaced by its result, an input of the double-click.
- `random.choice` is the `pick` index, constrained to the placeholder list.
- Middle-button panning: `mouseMoveEvent` and `mouseReleaseEvent` are defined at module level, not in `CanvasView`, so they never run; only the press handler is modelled, and the view never pans.
- The toolkit's default handlers (`super().mousePressEvent`, `super().mouseDoubleClickEvent`): rubber-band selection, item selection, moving and hit-testing, and focus arbitration are done inside Qt; focus is modelled only as the `focused` flag the card's handlers run after.
- Drag start and end: Qt moves a selected card by proposing positions; each proposal is `Card.ItemPositionChange`.
- Painting, colours, fonts, text width and stylesheets; `WelcomeScreen`; `MainWindow` layout; the fade transition of `open_canvas` (timer- and animation-driven).
- The scene rectangle (−5000, −5000, 10000, 10000): a scroll extent nothing is constrained by.
- Card size (220 × 140) and the bounding rectangle: used only for painting and hit-testing.
