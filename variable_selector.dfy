/**
 * The variable screen: three hold-browsers (the available columns, the
 * chosen inputs and the target column) with add, remove and run buttons.
 * A browser is its list of lines and its highlighted line, counted from 1
 * as FLTK does (0 when nothing is highlighted); a button is whether it is
 * active. The run callback is reported as the inputs and target it would
 * receive.
 */
module VariableSelectors {
  import opened Wrappers
  import opened Strings

  // ---------------------------------------------------------------------
  // Layout
  // ---------------------------------------------------------------------

  const Margin := 10
  const Spacing := 10
  const ButtonHeight := 25
  const HeaderHeight := 30
  const BottomButtonsHeight := 30
  const DescHeight := 25

  /** C++ int division by a positive divisor, truncating toward zero. */
  function CDiv(a: int, b: int): (q: int)
    requires b > 0
    ensures a >= 0 ==> q == a / b
    ensures a < 0 ==> q == -((-a) / b)
  {
    if a >= 0 then a / b else -((-a) / b)
  }

  /** The positions the screen computes from its box. */
  datatype Layout = Layout(browserWidth: int, componentHeight: int, componentY: int,
                           buttonsX: int, selectedX: int, targetX: int, bottomY: int)

  function LayoutOf(x: int, y: int, w: int, h: int): (l: Layout)
  {
    var browserWidth := CDiv(w - 2 * Margin - 2 * Spacing, 3);
    var buttonsX := x + Margin + browserWidth + Spacing / 2;
    var selectedX := buttonsX + ButtonHeight + Spacing / 2;
    Layout(browserWidth,
           h - 2 * Margin - HeaderHeight - DescHeight - BottomButtonsHeight - Spacing,
           y + Margin + HeaderHeight + DescHeight,
           buttonsX, selectedX, selectedX + browserWidth + Spacing,
           y + h - Margin - BottomButtonsHeight)
  }

  /** The columns run left to right: available browser, buttons, selected
      browser, target browser, whenever the browsers have a width; and
      because the division truncates, they have one from w = 38 on. */
  lemma LayoutOrdered(x: int, y: int, w: int, h: int)
    ensures LayoutOf(x, y, w, h).browserWidth >= 0 <==> w >= 38
    ensures LayoutOf(x, y, w, h).browserWidth >= 0 ==>
      x + Margin < LayoutOf(x, y, w, h).buttonsX < LayoutOf(x, y, w, h).selectedX < LayoutOf(x, y, w, h).targetX
  {
  }

  // ---------------------------------------------------------------------
  // The screen
  // ---------------------------------------------------------------------

  /** The list with the entry at index i (from 0) taken out. */
  function RemoveAt(s: seq<string>, i: nat): (r: seq<string>)
    requires i < |s|
    ensures |r| == |s| - 1
    ensures forall k :: 0 <= k < i ==> r[k] == s[k]
    ensures forall k :: i <= k < |r| ==> r[k] == s[k + 1]
  {
    s[..i] + s[i + 1..]
  }

  /** Taking out one entry of a list without repeats leaves the others,
      still without repeats, and not the one taken out. */
  lemma RemoveAtDistinct(s: seq<string>, i: nat)
    requires i < |s| && Distinct(s)
    ensures Distinct(RemoveAt(s, i))
    ensures s[i] !in RemoveAt(s, i)
    ensures forall v :: v in RemoveAt(s, i) <==> v in s && v != s[i]
  {
    var r := RemoveAt(s, i);
    forall v | v in s && v != s[i] ensures v in r {
      var k :| 0 <= k < |s| && s[k] == v;
      if k < i {
        assert r[k] == v;
      } else {
        assert r[k - 1] == v;
      }
    }
  }

  class VariableSelector {
    var available: seq<string>
    var selected: seq<string>
    var targets: seq<string>
    /** The highlighted lines, from 1; 0 when none is. */
    var availablePick: nat
    var selectedPick: nat
    var targetPick: nat
    var addActive: bool
    var removeActive: bool
    var runActive: bool
    /** The variable information box. */
    var info: string

    /** Highlights are lines of their browser; the inputs are distinct
        available names; the run button is active exactly when there is an
        input and a target. */
    predicate Valid()
      reads this
    {
      availablePick <= |available| && selectedPick <= |selected| && targetPick <= |targets|
      && Distinct(selected) && (forall v :: v in selected ==> v in available)
      && runActive == (|selected| > 0 && targetPick > 0)
    }

    /** The lists and what is highlighted in them. */
    function Lists(): (seq<string>, seq<string>, seq<string>, nat, nat, nat)
      reads this
    {
      (available, selected, targets, availablePick, selectedPick, targetPick)
    }

    /** The screen starts with empty browsers and every button inactive. */
    constructor ()
      ensures Valid() && available == [] && selected == [] && targets == []
      ensures !addActive && !removeActive && !runActive
    {
      available, selected, targets := [], [], [];
      availablePick, selectedPick, targetPick := 0, 0, 0;
      addActive, removeActive, runActive := false, false, false;
      info := "";
    }

    /** updateRunButtonState: run is active iff an input is chosen and a
        target is highlighted. */
    method UpdateRunButtonState()
      modifies this
      ensures runActive == (|selected| > 0 && targetPick > 0)
      ensures Lists() == old(Lists()) && addActive == old(addActive) && removeActive == old(removeActive)
      ensures info == old(info)
    {
      runActive := |selected| > 0 && targetPick > 0;
    }

    /** setAvailableVariables: the available and target browsers both list
        the given names in order, no input is chosen and nothing is
        highlighted. */
    method SetAvailableVariables(variables: seq<string>)
      modifies this
      ensures Valid() && available == variables && targets == variables && selected == []
      ensures availablePick == 0 && selectedPick == 0 && targetPick == 0 && !runActive && info == ""
      ensures addActive == old(addActive) && removeActive == old(removeActive)
    {
      available, selected, targets := [], [], [];
      availablePick, selectedPick, targetPick := 0, 0, 0;
      var i := 0;
      while i < |variables|
        invariant 0 <= i <= |variables| && available == variables[..i] && targets == variables[..i]
        invariant selected == [] && availablePick == 0 && selectedPick == 0 && targetPick == 0
        invariant addActive == old(addActive) && removeActive == old(removeActive)
      {
        available := available + [variables[i]];
        targets := targets + [variables[i]];
        i := i + 1;
      }
      info := "";
      UpdateRunButtonState();
    }

    /** handleAddVariableClick: the highlighted available name is appended
        to the inputs unless it is already one of them; nothing happens
        when no name is highlighted. */
    method HandleAddVariableClick()
      requires Valid()
      modifies this
      ensures Valid()
      ensures availablePick == 0 ==> selected == old(selected)
      ensures availablePick > 0 ==>
                selected == (if available[availablePick - 1] in old(selected) then old(selected)
                             else old(selected) + [available[availablePick - 1]])
      ensures available == old(available) && targets == old(targets)
      ensures availablePick == old(availablePick) && selectedPick == old(selectedPick) && targetPick == old(targetPick)
      ensures addActive == old(addActive) && removeActive == old(removeActive) && info == old(info)
    {
      if availablePick == 0 {
        return;
      }
      var name := available[availablePick - 1];
      var i := 1;
      while i <= |selected|
        invariant 1 <= i <= |selected| + 1
        invariant forall k :: 0 <= k < i - 1 ==> selected[k] != name
      {
        if selected[i - 1] == name {
          return;
        }
        i := i + 1;
      }
      selected := selected + [name];
      UpdateRunButtonState();
    }

    /** handleRemoveVariableClick: the highlighted input is taken out, the
        others kept in order; the highlight goes with it and the remove
        button is deactivated. Nothing happens with no highlight. */
    method HandleRemoveVariableClick()
      requires Valid()
      modifies this
      ensures Valid()
      ensures old(selectedPick) == 0 ==> selected == old(selected) && removeActive == old(removeActive)
      ensures old(selectedPick) > 0 ==>
                selected == RemoveAt(old(selected), old(selectedPick) - 1) && selectedPick == 0 && !removeActive
      ensures available == old(available) && targets == old(targets)
      ensures availablePick == old(availablePick) && targetPick == old(targetPick)
      ensures addActive == old(addActive) && info == old(info)
    {
      if selectedPick == 0 {
        return;
      }
      RemoveAtDistinct(selected, selectedPick - 1);
      selected, selectedPick := RemoveAt(selected, selectedPick - 1), 0;
      UpdateRunButtonState();
      removeActive := false;
    }

    /**
     * handleRunButtonClick: the callback receives the inputs in list order
     * and the highlighted target, but only when a target is highlighted
     * and it is not one of the inputs (that case raises an alert).
     */
    method HandleRunButtonClick() returns (fired: Option<(seq<string>, string)>)
      requires Valid()
      ensures fired.Some? <==> targetPick > 0 && targets[targetPick - 1] !in selected
      ensures fired.Some? ==> fired.value == (selected, targets[targetPick - 1])
      ensures fired.Some? ==> fired.value.1 !in fired.value.0
    {
      var inputs := [];
      var i := 1;
      while i <= |selected|
        invariant 1 <= i <= |selected| + 1 && inputs == selected[..i - 1]
      {
        inputs := inputs + [selected[i - 1]];
        i := i + 1;
      }
      assert inputs == selected;
      if targetPick == 0 {
        return None;
      }
      var target := targets[targetPick - 1];
      if target in inputs {
        return None;
      }
      return Some((inputs, target));
    }

    /** A click in the available browser: the add button is active iff a
        line is highlighted, whose name the information box then shows. */
    method HandleAvailableVariableSelectionChange(pick: nat)
      requires Valid() && pick <= |available|
      modifies this
      ensures Valid() && availablePick == pick && addActive == (pick > 0)
      ensures info == (if pick > 0 then "Variable: " + available[pick - 1] else "")
      ensures available == old(available) && selected == old(selected) && targets == old(targets)
      ensures selectedPick == old(selectedPick) && targetPick == old(targetPick)
      ensures removeActive == old(removeActive) && runActive == old(runActive)
    {
      availablePick := pick;
      if pick > 0 {
        addActive, info := true, "Variable: " + available[pick - 1];
      } else {
        addActive, info := false, "";
      }
    }

    /** A click in the selected browser: the remove button is active iff a
        line is highlighted. */
    method HandleSelectedVariableSelectionChange(pick: nat)
      requires Valid() && pick <= |selected|
      modifies this
      ensures Valid() && selectedPick == pick && removeActive == (pick > 0)
      ensures info == (if pick > 0 then "Variable: " + selected[pick - 1] else old(info))
      ensures available == old(available) && selected == old(selected) && targets == old(targets)
      ensures availablePick == old(availablePick) && targetPick == old(targetPick)
      ensures addActive == old(addActive) && runActive == old(runActive)
    {
      selectedPick := pick;
      removeActive := pick > 0;
      if pick > 0 {
        info := "Variable: " + selected[pick - 1];
      }
    }

    /** A click in the target browser: the run button state is refreshed. */
    method HandleTargetVariableChange(pick: nat)
      requires Valid() && pick <= |targets|
      modifies this
      ensures Valid() && targetPick == pick && runActive == (|selected| > 0 && pick > 0)
      ensures info == (if pick > 0 then "Variable: " + targets[pick - 1] else old(info))
      ensures available == old(available) && selected == old(selected) && targets == old(targets)
      ensures availablePick == old(availablePick) && selectedPick == old(selectedPick)
      ensures addActive == old(addActive) && removeActive == old(removeActive)
    {
      targetPick := pick;
      UpdateRunButtonState();
      if pick > 0 {
        info := "Variable: " + targets[pick - 1];
      }
    }
  }
}
