/** A canvas card (`CanvasCard`): its placeholder/editing state machine and its
    position, which snaps to the grid once the card exists. */
module Cards {
  import opened Grid

  /** `PLACEHOLDER_TEXTS`: the hint phrases a new card picks from. */
  const PLACEHOLDER_TEXTS: seq<string> := [
    "Escreva uma ideia aqui\U{2026}",
    "O que voc\U{EA} est\U{E1} pensando?",
    "Comece digitando\U{2026}",
    "Planeje algo incr\U{ED}vel\U{2026}",
    "Escreva maravilhas\U{2026}",
    "Suas notinhas..."
  ]

  /** `CardType`: the tag a card receives from the active tool. */
  datatype CardType = Text | Title | Checklist {
    /** The enum's value: TEXT = 1, TITLE = 2, CHECKLIST = 3. */
    function Value(): (v: int)
      ensures 1 <= v <= 3
    {
      match this
      case Text => 1
      case Title => 2
      case Checklist => 3
    }
  }

  /** The text colour of a card: grey (150, 150, 150) for the hint, light
      (230, 230, 230) while the user's own text is shown. */
  datatype Tone = Hint | Active

  /** The characters Python's `str.strip()` removes (those `str.isspace()` accepts). */
  predicate IsSpace(c: char) {
    c == ' ' || '\t' <= c <= '\r' || '\U{1C}' <= c <= '\U{1F}' ||
    c == '\U{85}' || c == '\U{A0}' || c == '\U{1680}' ||
    '\U{2000}' <= c <= '\U{200A}' || c == '\U{2028}' || c == '\U{2029}' ||
    c == '\U{202F}' || c == '\U{205F}' || c == '\U{3000}'
  }

  /** Empty or whitespace only. */
  predicate IsBlank(s: string) {
    forall i :: 0 <= i < |s| ==> IsSpace(s[i])
  }

  /** `s.lstrip()`. */
  function StripLeading(s: string): string {
    if s != [] && IsSpace(s[0]) then StripLeading(s[1..]) else s
  }

  /** `s.rstrip()`. */
  function StripTrailing(s: string): string {
    if s != [] && IsSpace(s[|s| - 1]) then StripTrailing(s[..|s| - 1]) else s
  }

  /** `lstrip` removes exactly the leading whitespace: what it drops is all
      whitespace, and what it keeps is a suffix that starts with a visible character. */
  lemma {:induction false} StripLeadingSpec(s: string)
    ensures var r := StripLeading(s);
      && |r| <= |s| && r == s[|s| - |r|..]
      && (forall i :: 0 <= i < |s| - |r| ==> IsSpace(s[i]))
      && (r != [] ==> !IsSpace(r[0]))
  {
    if s != [] && IsSpace(s[0]) {
      var t := s[1..];
      StripLeadingSpec(t);
      var r := StripLeading(t);
      assert t[|t| - |r|..] == s[|s| - |r|..];
      forall i | 0 < i < |s| - |r| ensures IsSpace(s[i]) {
        assert s[i] == t[i - 1];
      }
    }
  }

  /** `rstrip` removes exactly the trailing whitespace: what it drops is all
      whitespace, and what it keeps is a prefix that ends with a visible character. */
  lemma {:induction false} StripTrailingSpec(s: string)
    ensures var r := StripTrailing(s);
      && |r| <= |s| && r == s[..|r|]
      && (forall i :: |r| <= i < |s| ==> IsSpace(s[i]))
      && (r != [] ==> !IsSpace(r[|r| - 1]))
  {
    if s != [] && IsSpace(s[|s| - 1]) {
      var t := s[..|s| - 1];
      StripTrailingSpec(t);
      var r := StripTrailing(t);
      assert t[..|r|] == s[..|r|];
      forall i | |r| <= i < |s| - 1 ensures IsSpace(s[i]) {
        assert s[i] == t[i];
      }
    }
  }

  /** `s.strip()`. */
  function Strip(s: string): string {
    StripTrailing(StripLeading(s))
  }

  /** `not s.strip()` holds exactly for the blank strings. */
  lemma {:induction false} StripEmptyIff(s: string)
    ensures Strip(s) == [] <==> IsBlank(s)
  {
    var t := StripLeading(s);
    StripLeadingSpec(s);
    StripTrailingSpec(t);
    if t != [] {
      assert !IsSpace(t[0]) && t[0] == s[|s| - |t|];
      assert StripTrailing(t) != [];
      assert !IsBlank(s);
    }
  }

  /** Each placeholder phrase contains a visible character. */
  lemma PlaceholdersNotBlank(i: int)
    requires 0 <= i < |PLACEHOLDER_TEXTS|
    ensures !IsBlank(PLACEHOLDER_TEXTS[i])
  {
    assert !IsSpace(PLACEHOLDER_TEXTS[i][0]);
  }

  /** The editable part of a card: its fixed placeholder, the text its text item
      shows, `is_placeholder`, the text colour, and whether the text item holds
      the keyboard focus (kept by the toolkit, which delivers keystrokes only to
      the focused item). */
  datatype CardState = CardState(
    placeholderText: string,
    text: string,
    isPlaceholder: bool,
    tone: Tone,
    focused: bool)

  /** What every reachable card satisfies: its placeholder is one of the phrases;
      while it shows the placeholder the text is that phrase in the hint tone and
      it has no focus; otherwise the user's text is shown in the active tone, and
      a card without focus that shows user text shows a non-blank one (blank text
      is replaced by the placeholder when focus leaves). */
  ghost predicate Valid(s: CardState) {
    && s.placeholderText in PLACEHOLDER_TEXTS
    && (s.isPlaceholder ==> s.text == s.placeholderText && !s.focused)
    && s.tone == (if s.isPlaceholder then Hint else Active)
    && (!s.isPlaceholder && !s.focused ==> !IsBlank(s.text))
  }

  /** `_apply_placeholder`: show the placeholder phrase in the hint tone. */
  function WithPlaceholder(s: CardState): CardState {
    s.(text := s.placeholderText, tone := Hint)
  }

  /** The state `__init__` leaves: the chosen phrase, shown as placeholder. The
      white default colour the text item is given first is replaced by
      `_apply_placeholder` before `__init__` returns, so it is not a tone here. */
  function Initial(placeholder: string): CardState {
    WithPlaceholder(CardState(placeholder, "", true, Active, false))
  }

  /** `_on_focus_in`, after the toolkit gave the text item focus. */
  function FocusedIn(s: CardState): CardState {
    var s' := s.(focused := true);
    if s.isPlaceholder then s'.(text := "", tone := Active, isPlaceholder := false) else s'
  }

  /** `_on_focus_out`, after the toolkit took focus away from the text item. */
  function FocusedOut(s: CardState): CardState {
    var s' := s.(focused := false);
    if Strip(s.text) == [] then WithPlaceholder(s'.(isPlaceholder := true)) else s'
  }

  /** The user's keystrokes, which replace the text while the item has focus. */
  function Edited(s: CardState, t: string): CardState {
    s.(text := t)
  }

  /** A new card shows its placeholder in the hint tone, without focus. */
  lemma InitialValid(pick: nat)
    requires pick < |PLACEHOLDER_TEXTS|
    ensures Valid(Initial(PLACEHOLDER_TEXTS[pick]))
    ensures Initial(PLACEHOLDER_TEXTS[pick]).text == PLACEHOLDER_TEXTS[pick]
    ensures Initial(PLACEHOLDER_TEXTS[pick]).isPlaceholder
    ensures Initial(PLACEHOLDER_TEXTS[pick]).tone == Hint
  {
  }

  /** Gaining focus clears a placeholder card to empty text in the active tone,
      and changes nothing else on a card that shows user text. The placeholder
      phrase is kept. */
  lemma FocusInEffect(s: CardState)
    requires Valid(s)
    ensures Valid(FocusedIn(s))
    ensures FocusedIn(s).placeholderText == s.placeholderText
    ensures s.isPlaceholder ==>
      FocusedIn(s).text == "" && FocusedIn(s).tone == Active && !FocusedIn(s).isPlaceholder
    ensures !s.isPlaceholder ==> FocusedIn(s) == s.(focused := true)
  {
  }

  /** Losing focus with blank text brings the placeholder back in the hint tone;
      with non-blank text it changes nothing but the focus. */
  lemma {:induction false} FocusOutEffect(s: CardState)
    requires Valid(s)
    ensures Valid(FocusedOut(s))
    ensures FocusedOut(s).placeholderText == s.placeholderText
    ensures IsBlank(s.text) ==>
      FocusedOut(s).isPlaceholder && FocusedOut(s).text == s.placeholderText &&
      FocusedOut(s).tone == Hint
    ensures !IsBlank(s.text) ==> FocusedOut(s) == s.(focused := false)
  {
    StripEmptyIff(s.text);
  }

  /** Editing a focused card keeps the card valid and its placeholder phrase. */
  lemma EditEffect(s: CardState, t: string)
    requires Valid(s) && s.focused
    ensures Valid(Edited(s, t))
    ensures Edited(s, t).text == t && Edited(s, t).placeholderText == s.placeholderText
  {
  }

  /** Gaining or losing focus twice in a row is the same as once. */
  lemma {:induction false} FocusIdempotent(s: CardState)
    requires Valid(s)
    ensures FocusedIn(FocusedIn(s)) == FocusedIn(s)
    ensures FocusedOut(FocusedOut(s)) == FocusedOut(s)
  {
    var i :| 0 <= i < |PLACEHOLDER_TEXTS| && PLACEHOLDER_TEXTS[i] == s.placeholderText;
    PlaceholdersNotBlank(i);
    StripEmptyIff(s.placeholderText);
    StripEmptyIff(s.text);
  }

  /** Focusing a card without focus and leaving it without typing restores
      exactly the state it had, whether it showed its placeholder or user text. */
  lemma {:induction false} FocusRoundTrip(s: CardState)
    requires Valid(s) && !s.focused
    ensures FocusedOut(FocusedIn(s)) == s
  {
    StripEmptyIff(FocusedIn(s).text);
  }

  /** A focus visit in which the user leaves text `t`: a non-blank `t` stays on the
      card as user text; a blank `t` (nothing typed, or everything deleted) returns
      the card to its placeholder. */
  lemma {:induction false} EditSession(s: CardState, t: string)
    requires Valid(s)
    ensures var r := FocusedOut(Edited(FocusedIn(s), t));
      && Valid(r)
      && (IsBlank(t) ==> r.isPlaceholder && r.text == s.placeholderText && r.tone == Hint)
      && (!IsBlank(t) ==> !r.isPlaceholder && r.text == t && r.tone == Active)
      && !r.focused
  {
    StripEmptyIff(t);
  }

  /** A card on the canvas. The card is a graphics item whose position the
      toolkit stores; `placeholderText` and `kind` are set once in the
      constructor. */
  class Card {
    const placeholderText: string
    const kind: CardType
    var text: string
    var isPlaceholder: bool
    var tone: Tone
    var focused: bool
    var pos: Point

    function State(): CardState
      reads this
    {
      CardState(placeholderText, text, isPlaceholder, tone, focused)
    }

    /** `CanvasCard(x, y, card_type)`. `pick` stands for `random.choice`. The
        position is stored as given: the grid-snapping flag is set only after
        `setPos` runs. */
    constructor (p: Point, cardKind: CardType, pick: nat)
      requires pick < |PLACEHOLDER_TEXTS|
      ensures State() == Initial(PLACEHOLDER_TEXTS[pick])
      ensures Valid(State())
      ensures pos == p && kind == cardKind
    {
      pos := p;
      kind := cardKind;
      placeholderText := PLACEHOLDER_TEXTS[pick];
      isPlaceholder := true;
      text := "";
      tone := Active;
      focused := false;
      new;
      ApplyPlaceholder();
    }

    /** `_apply_placeholder`. */
    method ApplyPlaceholder()
      modifies this
      ensures State() == WithPlaceholder(old(State()))
      ensures pos == old(pos)
    {
      text := placeholderText;
      tone := Hint;
    }

    /** The toolkit gives the text item focus and calls `_on_focus_in`. */
    method FocusIn()
      requires Valid(State())
      modifies this
      ensures State() == FocusedIn(old(State()))
      ensures Valid(State())
      ensures pos == old(pos)
    {
      FocusInEffect(State());
      focused := true;
      if isPlaceholder {
        text := "";
        tone := Active;
        isPlaceholder := false;
      }
    }

    /** The toolkit takes focus from the text item and calls `_on_focus_out`. */
    method FocusOut()
      requires Valid(State())
      modifies this
      ensures State() == FocusedOut(old(State()))
      ensures Valid(State())
      ensures pos == old(pos)
    {
      FocusOutEffect(State());
      focused := false;
      if Strip(text) == [] {
        isPlaceholder := true;
        ApplyPlaceholder();
      }
    }

    /** The user edits the focused text item, leaving `t` in it. */
    method Edit(t: string)
      requires Valid(State()) && focused
      modifies this`text
      ensures State() == Edited(old(State()), t)
      ensures Valid(State())
    {
      EditEffect(State(), t);
      text := t;
    }

    /** A move while dragging: `itemChange` replaces the proposed position by
        the nearest grid point, and that is the position stored. */
    method ItemPositionChange(proposed: Point)
      modifies this`pos
      ensures pos == SnapPoint(proposed)
    {
      pos := SnapPoint(proposed);
    }
  }
}
