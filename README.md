# SegmentedControl indicator geometry

`SegmentedControl` is a segmented selector that draws an underline (the
indicator bar) under the selected segment. Its one piece of logic is
`updateSlider()`. It works out each segment's width. A reported width of
exactly 0 means "auto", and auto segments share equally what is left of the
control's width. It then places the bar: it starts `padding` after the
segments before the selected one and is the selected segment's width less
`2 * padding`. The result goes into the two layout-constraint constants and
into the bar's frame. This happens on setup, on every layout pass, when the
padding changes and when the selection changes.

The project has two modules:

- `Geometry` (`geometry.dfy`) holds the pure computation, over `real` widths.
  It has the left-fold sum (`Sum`), the auto count (`AutoCount`), the
  replacement of the 0 sentinel (`Fill`, `Resolve`) and the returned pair
  (`Slider`), with lemmas about them.
- `Control` (`segmented_control.dfy`) holds a class `SegmentedControl`. Its
  fields are the padding, the selected index, the two constraint constants
  (`None` until the setup creates the constraints) and the bar's x and width.
  Its methods are the source's callers of `updateSlider()`.

The host control's per-segment widths (`widthForSegment`), their number and
the control's width (`frame.width`) are parameters of every operation
(`widths`, `containerWidth`).

Behaviour worth knowing, as the code has it:

- With no segment selected, `updateSlider()` returns `(0, 0)` and writes
  neither constraint. Its constraint writes go through optionals, so they do
  nothing before the setup has created the constraints.
- The code subtracts the sum of *all* reported widths from the container
  width, not only the explicit ones. The two are equal because auto widths
  are 0 (`AutoShareFromExplicit`).
- The last segment's bar is guaranteed to end exactly `padding` before the
  container's right edge when at least one segment is auto
  (`LastSegmentEndsBeforeEdge`). With explicit widths only, the container
  width plays no part: the bar then ends `padding` before the sum of the
  reported widths, which is the container's edge only if those widths happen
  to fill it (`NoAutoIgnoresContainer`).
- The left offset is not always non-negative and the width is never clamped
  (`NegativeWidthNotClamped`). Bounds are proved when the widths are
  non-negative and their sum fits in the container (`ResolvedNonNegative`,
  `GeometryBounds`).

## Model

| member | source | states |
|---|---|---|
| `Geometry.Sum` | SegmentedControl.swift:128-130 | the `reduce` fold, adding the last element last (no contract of its own; characterised by `SumAppend` and `SumOfConstant`) |
| `Geometry.AutoCount` | SegmentedControl.swift:126 | the count of auto (exactly 0) widths never exceeds the number of segments |
| `Geometry.AutoCountExact` | SegmentedControl.swift:126-127 | the count is positive exactly when some width is 0, and equals the number of segments exactly when all are 0 |
| `Geometry.Fill` | SegmentedControl.swift:132-138 | the mapped list has the same length; each 0 entry becomes the given share and every other entry is unchanged |
| `Geometry.AutoShare` | SegmentedControl.swift:131 | `remainingWidth` (no contract of its own; `ShareTimesCount` proves that the auto count times the share is the container width less the sum of all widths) |
| `Geometry.Resolve` | SegmentedControl.swift:124-139 | same length as the reported list; explicit widths kept; every auto width gets the same share; with no auto segment the list is the reported one, whatever the container width |
| `Geometry.Slider` | SegmentedControl.swift:121-147 | no selection gives `(0, 0)`; otherwise left + width + padding is the sum of the resolved widths through the selected segment |
| `Geometry.ExplicitSum` | SegmentedControl.swift:128-130 | summing all reported widths equals summing only the explicit ones |
| `Geometry.AutoShareFromExplicit` | SegmentedControl.swift:128-131 | the shares of all auto segments together equal the container width less the sum of the explicit widths |
| `Geometry.FillSum` | SegmentedControl.swift:128-138 | replacing the auto widths by `v` adds `v` once per auto segment to the sum |
| `Geometry.ResolveFillsContainer` | SegmentedControl.swift:127-138 | with at least one auto segment, the resolved widths sum exactly to the container width |
| `Geometry.ConsecutiveBarsTile` | SegmentedControl.swift:141-147 | the bar of segment `i + 1` starts one resolved width of segment `i` after the bar of segment `i`, which is where bar `i` ends plus twice the padding |
| `Geometry.LastSegmentEndsBeforeEdge` | SegmentedControl.swift:124-147 | with auto segments and the last segment selected, the bar ends `padding` before the container's right edge |
| `Geometry.NoAutoIgnoresContainer` | SegmentedControl.swift:124-147 | with no auto segment the result does not depend on the container width, and the last segment's bar ends `padding` before the sum of the reported widths |
| `Geometry.UniformSegments` | SegmentedControl.swift:124-147 | for segments of one common width `u` (the explicit width, or the container split evenly when all are auto), segment `i` gives `(i * u + padding, u - 2 * padding)` |
| `Geometry.NegativeWidthNotClamped` | SegmentedControl.swift:146 | a padding over half the segment width gives a negative width, which is returned as is |
| `Geometry.ResolvedNonNegative` | SegmentedControl.swift:124-139 | with non-negative widths whose sum fits the container, every resolved width is non-negative |
| `Geometry.GeometryBounds` | SegmentedControl.swift:124-147 | with non-negative widths whose sum fits the container, the left offset is at least `padding` and the width at least `-2 * padding` |
| `Geometry.WorkedExamples` | SegmentedControl.swift:119-152 | three layouts (all auto, all explicit, mixed) give the offsets and widths computed by hand |
| `Control.SegmentedControl.constructor` | SegmentedControl.swift:20-44 | a new control has padding 3, no selection, no constraints and a zero-sized bar |
| `Control.SegmentedControl.UpdateSlider` | SegmentedControl.swift:119-152 | returns the `Slider` geometry; writes it into the constraints only when a segment is selected and only into constraints that exist |
| `Control.SegmentedControl.ApplySlider` | SegmentedControl.swift:57-60 | the bar's x and width become the returned pair, and the constraints agree with the bar whenever something is selected |
| `Control.SegmentedControl.SetPadding` | SegmentedControl.swift:20-27 | from any state in which both constraints exist or neither does, stores the new padding and moves the bar to the geometry computed with it; the selection is unchanged; afterwards the constraints agree with the bar whenever something is selected |
| `Control.SegmentedControl.LayoutSubviews` | SegmentedControl.swift:55-62 | from any state in which both constraints exist or neither does, moves the bar to the geometry for the current widths; padding and selection are unchanged; afterwards the constraints agree with the bar whenever something is selected |
| `Control.SegmentedControl.SegmentedControlValueChanged` | SegmentedControl.swift:108-116 | from any state in which both constraints exist or neither does, moves the bar to the geometry of the new selection; the padding is unchanged; afterwards the constraints agree with the bar whenever something is selected |
| `Control.SegmentedControl.SetupIndicatorBar` | SegmentedControl.swift:81-106 | both constraints exist afterwards, and the provisional width is overwritten: both constants and the bar equal the `Slider` geometry |
| `Control.SegmentedControl.InitUI` | SegmentedControl.swift:64-79 | selects segment 0, so the bar starts at `padding` and is the first resolved width less twice the padding, with the constraints equal to the bar |
| `Control.InitialWidth` | SegmentedControl.swift:94-97 | the provisional width of the setup (no contract of its own; characterised by `InitialWidthMatchesResolved` and `InitialWidthMayDiffer`) |
| `Control.InitialWidthMatchesResolved` | SegmentedControl.swift:94-97 | the provisional width equals the selected resolved width when that segment is explicit or every segment is auto |
| `Control.InitialWidthMayDiffer` | SegmentedControl.swift:94-97 | with explicit and auto segments mixed, the provisional width can differ from the resolved one |

## Left out

- Appearance: the indicator colour, its height and corner radius, title fonts, and the tint and background colours (SegmentedControl.swift:13-18, 29-37, 66-77, 82-85). They are visual and have no checkable behaviour. The `indicatorHeight` observer is not modelled for the same reason.
- Interface Builder hooks: `prepareForInterfaceBuilder` and `awakeFromNib` only call `initUI()`, which `InitUI` models.
- Auto Layout plumbing: creating and activating constraints, `addSubview` and `addTarget` are calls into the UI framework. Only the two constraint constants are kept. A second setup replaces the fields and does not model the older constraints that would stay active.
- `UIView.animate`: the 0.3-second tween is asynchronous and visual. The model assigns the final values directly.
- Floating point: `CGFloat` is modelled as `real`, so the equal split has no rounding drift. The 0 sentinel is still an exact `== 0` test.
- Host control state: the selection change itself (a tap) happens in the host control. `SegmentedControlValueChanged` takes the newly recorded index as a parameter. The default `selectedSegmentIndex` of a new control is taken as -1 (no selection). A programmatic change of `selectedSegmentIndex` by the host is not an operation of the model; the callers accept any state it can leave behind, including one where the constraints hold an older geometry than the bar.
- Index bounds: the source does not check the selected index against the number of segments before indexing. Every operation therefore requires `selectedIndex < |widths|`, and `SetupIndicatorBar` also requires a non-negative index, since it reads the selected segment's width.
