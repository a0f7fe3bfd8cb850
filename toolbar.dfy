/** The bottom bar (`BottomBar`): three checkable tool buttons choosing the type
    of the cards the canvas creates. */
module Toolbar {
  import opened Cards
  import opened Canvas

  /** The slot of a type's button in the bar, in the order text, title, checklist. */
  function ButtonIndex(t: CardType): nat {
    t.Value() - 1
  }

  /** The button type a slot stands for. */
  function ButtonType(i: nat): CardType
    requires i < 3
  {
    if i == 0 then Text else if i == 1 then Title else Checklist
  }

  /** The check state `set_type(t)` leaves on the three buttons. */
  function ToolFlags(t: CardType): (flags: seq<bool>)
    ensures |flags| == 3
    ensures forall i :: 0 <= i < 3 ==> (flags[i] <==> ButtonType(i) == t)
  {
    [t == Text, t == Title, t == Checklist]
  }

  function CountChecked(flags: seq<bool>): nat {
    if flags == [] then 0 else (if flags[0] then 1 else 0) + CountChecked(flags[1..])
  }

  /** After `set_type(t)` exactly one button is checked, the one in `t`'s slot,
      and that slot's button is the one for `t`. */
  lemma ExactlyOneChecked(t: CardType)
    ensures CountChecked(ToolFlags(t)) == 1
    ensures forall i :: 0 <= i < 3 ==> (ToolFlags(t)[i] <==> i == ButtonIndex(t))
    ensures ButtonIndex(t) < 3 && ButtonType(ButtonIndex(t)) == t
  {
    var f := ToolFlags(t);
    assert f[1..] == [f[1], f[2]] && f[1..][1..] == [f[2]] && f[1..][1..][1..] == [];
    assert CountChecked([f[2]]) == (if f[2] then 1 else 0);
  }

  /** `BottomBar`: `checked` holds the check state of `btn_text`, `btn_title` and
      `btn_check`, in that order. */
  class BottomBar {
    const canvas: CanvasView
    const checked: array<bool>

    /** One check flag per button. */
    ghost predicate Valid()
      reads this
    {
      checked.Length == 3
    }

    /** The bar starts with the text button checked, matching the view's initial
        card type. */
    constructor (view: CanvasView)
      ensures Valid() && canvas == view && fresh(checked)
      ensures checked[..] == ToolFlags(Text)
    {
      canvas := view;
      checked := new bool[3];
      new;
      checked[0] := true;
      checked[1] := false;
      checked[2] := false;
    }

    /** `set_type`: record the type on the canvas, uncheck all three buttons, then
        check the chosen type's button. */
    method SetType(t: CardType)
      requires Valid()
      modifies checked, canvas`currentCardType
      ensures checked[..] == ToolFlags(t)
      ensures canvas.Model() == Step(old(canvas.Model()), ToolSelected(t))
    {
      canvas.currentCardType := t;
      for i := 0 to checked.Length
        modifies checked
        invariant forall j :: 0 <= j < i ==> !checked[j]
      {
        checked[i] := false;
      }
      if t == Text {
        checked[0] := true;
      } else if t == Title {
        checked[1] := true;
      } else if t == Checklist {
        checked[2] := true;
      }
    }

    /** A click on the button in slot `i`: the toolkit toggles the checkable button,
        then its `clicked` handler calls `set_type` with the button's type, so the
        bar ends in the same state whether the button was checked before or not. */
    method Click(i: nat)
      requires Valid() && i < checked.Length
      modifies checked, canvas`currentCardType
      ensures checked[..] == ToolFlags(ButtonType(i))
      ensures canvas.currentCardType == ButtonType(i)
    {
      checked[i] := !checked[i];
      SetType(ButtonType(i));
    }
  }
}
