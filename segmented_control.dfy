/** The state side of SegmentedControl.swift: the selected index and padding,
    the constants of the two layout constraints that position the underline,
    and the underline view's frame x and width. Segment widths and the
    control's width belong to the host control; every operation takes them as
    its `widths` (one per segment, 0 meaning auto) and `containerWidth`. */
module Control {
  import opened Geometry

  /** A layout constraint that may not have been created yet (an optional in
      the source). Only its constant is modelled. */
  datatype Option<T> = None | Some(value: T)

  class SegmentedControl {
    var padding: real
    var selectedIndex: int            // negative: no segment selected
    var leftConstraint: Option<real>  // constant of the bar's left-anchor constraint
    var widthConstraint: Option<real> // constant of the bar's width constraint
    var barX: real                    // indicatorBar.frame.origin.x
    var barWidth: real                // indicatorBar.frame.size.width

    /** Both constraints are created together by the setup, and whenever a
        segment is selected the constraints and the bar's frame agree. Every
        caller of `updateSlider()` re-establishes this; the host control can
        break it between calls by changing the selection programmatically
        (the constraints then keep an older geometry), so the callers do not
        assume it. */
    ghost predicate Valid()
      reads this
    {
      leftConstraint.Some? == widthConstraint.Some? &&
      (leftConstraint.Some? && selectedIndex >= 0 ==>
         leftConstraint == Some(barX) && widthConstraint == Some(barWidth))
    }

    /** The constraints after `updateSlider()` has run with result `g`: written
        only when something is selected and only if they exist. */
    ghost predicate ConstraintsWritten(g: Indicator, oldLeft: Option<real>, oldWidth: Option<real>)
      reads this
    {
      leftConstraint == (if selectedIndex >= 0 && oldLeft.Some? then Some(g.leftSpacing) else oldLeft) &&
      widthConstraint == (if selectedIndex >= 0 && oldWidth.Some? then Some(g.width) else oldWidth)
    }

    /** A freshly created control: default padding 3, no selection, no
        constraints yet and a zero-sized bar. */
    constructor ()
      ensures Valid()
      ensures padding == 3.0 && selectedIndex == -1
      ensures leftConstraint == None && widthConstraint == None
      ensures barX == 0.0 && barWidth == 0.0
    {
      padding := 3.0;
      selectedIndex := -1;
      leftConstraint, widthConstraint := None, None;
      barX, barWidth := 0.0, 0.0;
    }

    /** `updateSlider()`: computes the bar's geometry and writes it into the
        existing constraints. With no selection it returns `(0, 0)` and writes
        nothing. */
    method UpdateSlider(widths: seq<real>, containerWidth: real) returns (leftSpacing: real, width: real)
      requires selectedIndex < |widths|
      modifies this`leftConstraint, this`widthConstraint
      ensures Indicator(leftSpacing, width) == Slider(widths, containerWidth, selectedIndex, padding)
      ensures ConstraintsWritten(Indicator(leftSpacing, width), old(leftConstraint), old(widthConstraint))
    {
      if selectedIndex < 0 {
        return 0.0, 0.0;
      }
      var widthList := widths;
      var autoWidthCount := AutoCount(widthList);
      if autoWidthCount > 0 {
        var widthSum := Sum(widthList);
        var remainingWidth := (containerWidth - widthSum) / autoWidthCount as real;
        widthList := Fill(widthList, remainingWidth);
      }
      width := widthList[selectedIndex];
      leftSpacing := Sum(widthList[..selectedIndex]);
      width := width - 2.0 * padding;
      leftSpacing := leftSpacing + padding;
      if leftConstraint.Some? {
        leftConstraint := Some(leftSpacing);
      }
      if widthConstraint.Some? {
        widthConstraint := Some(width);
      }
    }

    /** Runs `updateSlider()` and copies its result into the bar's frame, as
        every caller in the source does. */
    method ApplySlider(widths: seq<real>, containerWidth: real)
      requires leftConstraint.Some? == widthConstraint.Some? && selectedIndex < |widths|
      modifies this`leftConstraint, this`widthConstraint, this`barX, this`barWidth
      ensures Valid()
      ensures var g := Slider(widths, containerWidth, selectedIndex, padding);
              barX == g.leftSpacing && barWidth == g.width &&
              ConstraintsWritten(g, old(leftConstraint), old(widthConstraint))
    {
      var vals0, vals1 := UpdateSlider(widths, containerWidth);
      barX := vals0;
      barWidth := vals1;
    }

    /** The `padding` observer: stores the new padding and moves the bar. */
    method SetPadding(newPadding: real, widths: seq<real>, containerWidth: real)
      requires leftConstraint.Some? == widthConstraint.Some? && selectedIndex < |widths|
      modifies this
      ensures Valid()
      ensures padding == newPadding && selectedIndex == old(selectedIndex)
      ensures var g := Slider(widths, containerWidth, selectedIndex, newPadding);
              barX == g.leftSpacing && barWidth == g.width &&
              ConstraintsWritten(g, old(leftConstraint), old(widthConstraint))
    {
      padding := newPadding;
      ApplySlider(widths, containerWidth);
    }

    /** `layoutSubviews()`: recomputes the geometry for the current widths and
        moves the bar there (the animation is not modelled, only where it ends). */
    method LayoutSubviews(widths: seq<real>, containerWidth: real)
      requires leftConstraint.Some? == widthConstraint.Some? && selectedIndex < |widths|
      modifies this
      ensures Valid()
      ensures padding == old(padding) && selectedIndex == old(selectedIndex)
      ensures var g := Slider(widths, containerWidth, selectedIndex, padding);
              barX == g.leftSpacing && barWidth == g.width &&
              ConstraintsWritten(g, old(leftConstraint), old(widthConstraint))
    {
      ApplySlider(widths, containerWidth);
    }

    /** `segmentedControlValueChanged(_:)`: the host control has recorded the
        user's new selection `newIndex`; the bar moves to it. */
    method SegmentedControlValueChanged(newIndex: int, widths: seq<real>, containerWidth: real)
      requires leftConstraint.Some? == widthConstraint.Some? && newIndex < |widths|
      modifies this
      ensures Valid()
      ensures padding == old(padding) && selectedIndex == newIndex
      ensures var g := Slider(widths, containerWidth, newIndex, padding);
              barX == g.leftSpacing && barWidth == g.width &&
              ConstraintsWritten(g, old(leftConstraint), old(widthConstraint))
    {
      selectedIndex := newIndex;
      ApplySlider(widths, containerWidth);
    }

    /** `setupIndicatorBar()`: creates the left constraint (constant 0) and the
        width constraint with a provisional width, then runs `updateSlider()`,
        which overwrites both, and moves the bar. */
    method SetupIndicatorBar(widths: seq<real>, containerWidth: real)
      requires 0 <= selectedIndex < |widths|
      modifies this
      ensures Valid()
      ensures padding == old(padding) && selectedIndex == old(selectedIndex)
      ensures var g := Slider(widths, containerWidth, selectedIndex, padding);
              barX == g.leftSpacing && barWidth == g.width &&
              leftConstraint == Some(g.leftSpacing) && widthConstraint == Some(g.width)
    {
      leftConstraint := Some(0.0);
      var width := InitialWidth(widths, containerWidth, selectedIndex);
      widthConstraint := Some(width);
      var vals0, vals1 := UpdateSlider(widths, containerWidth);
      barX := vals0;
      barWidth := vals1;
    }

    /** `initUI()` (run by `awakeFromNib` and `prepareForInterfaceBuilder`):
        selects the first segment and sets the bar up, so the bar starts at
        `padding` and is as wide as the first resolved segment less twice
        the padding. */
    method InitUI(widths: seq<real>, containerWidth: real)
      requires |widths| > 0
      modifies this
      ensures Valid()
      ensures padding == old(padding) && selectedIndex == 0
      ensures barX == padding
      ensures barWidth == Resolve(widths, containerWidth)[0] - 2.0 * padding
      ensures leftConstraint == Some(barX) && widthConstraint == Some(barWidth)
    {
      selectedIndex := 0;
      SetupIndicatorBar(widths, containerWidth);
      assert Resolve(widths, containerWidth)[..0] == [];
    }
  }

  /** The provisional width the setup gives the width constraint: the selected
      segment's reported width, or the control's width split evenly over all
      segments when that width is 0 (auto). */
  function InitialWidth(widths: seq<real>, containerWidth: real, selected: nat): real
    requires selected < |widths|
  {
    if widths[selected] == 0.0 then containerWidth / |widths| as real else widths[selected]
  }

  /** The provisional width is the selected segment's resolved width (before
      the padding inset) when that segment is explicit or when every segment
      is auto; only with a mix of explicit and auto segments can it differ. */
  lemma InitialWidthMatchesResolved(widths: seq<real>, containerWidth: real, selected: nat)
    requires selected < |widths|
    requires widths[selected] != 0.0 || forall i :: 0 <= i < |widths| ==> widths[i] == 0.0
    ensures InitialWidth(widths, containerWidth, selected) == Resolve(widths, containerWidth)[selected]
  {
    if widths[selected] == 0.0 {
      AutoCountExact(widths);
      SumOfConstant(widths, 0.0);
    }
  }

  /** With a mix, the provisional width can differ: two segments, one of 100
      and one auto, in a 300-wide control give 150 provisionally but 200 once
      resolved. */
  lemma InitialWidthMayDiffer()
    ensures InitialWidth([100.0, 0.0], 300.0, 1) == 150.0
    ensures Resolve([100.0, 0.0], 300.0)[1] == 200.0
  {
    var w := [100.0, 0.0];
    assert w[..1] == [100.0] && w[..1][..0] == [];
    assert AutoCount(w) == 1;
    assert Sum(w) == 100.0;
  }
}
