/** Geometry of the underline that marks the selected segment: the pure part of
    `updateSlider()` in SegmentedControl.swift. Widths are `CGFloat`s, modelled
    as `real`, so sums and the equal split are exact. A reported width of
    exactly 0 is the host control's "auto-size this segment" sentinel. */
module Geometry {

  /** The pair `(leftSpacing, width)` that `updateSlider()` returns. */
  datatype Indicator = Indicator(leftSpacing: real, width: real)

  /** `reduce(0) { result + next }`: a left fold, so the last element is added last. */
  function Sum(s: seq<real>): real
  {
    if |s| == 0 then 0.0 else Sum(s[..|s| - 1]) + s[|s| - 1]
  }

  /** `filter({ $0 == 0.0 }).count`: the number of auto-width segments. */
  function AutoCount(s: seq<real>): (n: nat)
    ensures n <= |s|
  {
    if |s| == 0 then 0
    else AutoCount(s[..|s| - 1]) + (if s[|s| - 1] == 0.0 then 1 else 0)
  }

  /** There is an auto segment exactly when the count is positive, and every
      segment is auto exactly when the count is the number of segments. */
  lemma {:induction false} AutoCountExact(s: seq<real>)
    ensures AutoCount(s) > 0 <==> exists i :: 0 <= i < |s| && s[i] == 0.0
    ensures AutoCount(s) == |s| <==> forall i :: 0 <= i < |s| ==> s[i] == 0.0
  {
    if |s| > 0 {
      var p := s[..|s| - 1];
      AutoCountExact(p);
      assert forall i :: 0 <= i < |p| ==> p[i] == s[i];
    }
  }

  /** The explicit (non-zero) widths, in order. */
  function Explicit(s: seq<real>): (r: seq<real>)
    ensures |r| + AutoCount(s) == |s|
  {
    if |s| == 0 then []
    else if s[|s| - 1] == 0.0 then Explicit(s[..|s| - 1])
    else Explicit(s[..|s| - 1]) + [s[|s| - 1]]
  }

  /** `widthList.map { width == 0.0 ? v : width }`: every auto width becomes `v`. */
  function Fill(s: seq<real>, v: real): (r: seq<real>)
    ensures |r| == |s|
    ensures forall i :: 0 <= i < |s| ==> r[i] == (if s[i] == 0.0 then v else s[i])
  {
    if |s| == 0 then []
    else Fill(s[..|s| - 1], v) + [if s[|s| - 1] == 0.0 then v else s[|s| - 1]]
  }

  /** `remainingWidth`: what is left of the container after all reported widths,
      split equally among the auto segments. */
  function AutoShare(widths: seq<real>, containerWidth: real): real
    requires AutoCount(widths) > 0
  {
    (containerWidth - Sum(widths)) / AutoCount(widths) as real
  }

  /** The widths after auto-width resolution: explicit widths are kept, every
      auto width receives the same share, and with no auto segment the list
      is the reported one, whatever the container width. */
  function Resolve(widths: seq<real>, containerWidth: real): (r: seq<real>)
    ensures |r| == |widths|
    ensures forall i :: 0 <= i < |widths| && widths[i] != 0.0 ==> r[i] == widths[i]
    ensures AutoCount(widths) > 0 ==>
              forall i :: 0 <= i < |widths| && widths[i] == 0.0 ==> r[i] == AutoShare(widths, containerWidth)
    ensures AutoCount(widths) == 0 ==> r == widths
  {
    if AutoCount(widths) > 0 then Fill(widths, AutoShare(widths, containerWidth))
    else widths
  }

  /** `updateSlider()`'s result. With no selection it is `(0, 0)`; otherwise the
      bar starts `padding` after the resolved widths of the segments before the
      selected one and stops `padding` before the end of the selected segment.
      The index is not bounds-checked by the source, so callers must keep it
      below the number of segments. */
  function Slider(widths: seq<real>, containerWidth: real, selected: int, padding: real): (r: Indicator)
    requires selected < |widths|
    ensures selected < 0 ==> r == Indicator(0.0, 0.0)
    ensures selected >= 0 ==>
              r.leftSpacing + r.width + padding == Sum(Resolve(widths, containerWidth)[..selected + 1])
  {
    if selected < 0 then Indicator(0.0, 0.0)
    else
      var resolved := Resolve(widths, containerWidth);
      assert resolved[..selected + 1][..selected] == resolved[..selected];
      Indicator(Sum(resolved[..selected]) + padding, resolved[selected] - 2.0 * padding)
  }

  // ---------------------------------------------------------------------------
  // Sums

  /** `v` added `n` times, which keeps the sums below free of non-linear arithmetic. */
  function Times(n: nat, v: real): real
  {
    if n == 0 then 0.0 else Times(n - 1, v) + v
  }

  lemma ShareTimesCount(widths: seq<real>, containerWidth: real)
    requires AutoCount(widths) > 0
    ensures Times(AutoCount(widths), AutoShare(widths, containerWidth)) == containerWidth - Sum(widths)
  {
    var k := AutoCount(widths) as real;
    var x := containerWidth - Sum(widths);
    TimesIsProduct(AutoCount(widths), x / k);
    assert k * (x / k) == x;
  }

  lemma QuotientNonNegative(x: real, k: real)
    requires x >= 0.0 && k > 0.0
    ensures x / k >= 0.0
  {
  }

  lemma {:induction false} TimesIsProduct(n: nat, v: real)
    ensures Times(n, v) == n as real * v
  {
    if n > 0 {
      TimesIsProduct(n - 1, v);
    }
  }

  lemma SumAppend(s: seq<real>, x: real)
    ensures Sum(s + [x]) == Sum(s) + x
  {
    assert (s + [x])[..|s|] == s;
  }

  lemma {:induction false} SumOfConstant(s: seq<real>, w: real)
    requires forall i :: 0 <= i < |s| ==> s[i] == w
    ensures Sum(s) == |s| as real * w
  {
    if |s| > 0 {
      SumOfConstant(s[..|s| - 1], w);
    }
  }

  lemma {:induction false} SumNonNegative(s: seq<real>)
    requires forall i :: 0 <= i < |s| ==> s[i] >= 0.0
    ensures Sum(s) >= 0.0
  {
    if |s| > 0 {
      SumNonNegative(s[..|s| - 1]);
    }
  }

  /** Summing all reported widths is the same as summing only the explicit
      ones, since an auto width contributes 0. */
  lemma {:induction false} ExplicitSum(s: seq<real>)
    ensures Sum(Explicit(s)) == Sum(s)
  {
    if |s| > 0 {
      var p := s[..|s| - 1];
      ExplicitSum(p);
      if s[|s| - 1] != 0.0 {
        SumAppend(Explicit(p), s[|s| - 1]);
      }
    }
  }

  /** The auto segments together receive exactly what the explicit widths
      leave of the container: the share is that remainder divided by the
      number of auto segments. */
  lemma AutoShareFromExplicit(widths: seq<real>, containerWidth: real)
    requires AutoCount(widths) > 0
    ensures Times(AutoCount(widths), AutoShare(widths, containerWidth))
            == containerWidth - Sum(Explicit(widths))
  {
    ShareTimesCount(widths, containerWidth);
    ExplicitSum(widths);
  }

  /** Replacing every auto width by `v` adds `v` once per auto segment. */
  lemma {:induction false} FillSum(s: seq<real>, v: real)
    ensures Sum(Fill(s, v)) == Sum(s) + Times(AutoCount(s), v)
  {
    if |s| > 0 {
      var p := s[..|s| - 1];
      var x := if s[|s| - 1] == 0.0 then v else s[|s| - 1];
      FillSum(p, v);
      assert Fill(s, v) == Fill(p, v) + [x];
      SumAppend(Fill(p, v), x);
    }
  }

  // ---------------------------------------------------------------------------
  // Properties of the resolved widths and of the indicator

  /** With at least one auto segment, the resolved widths fill the container exactly. */
  lemma ResolveFillsContainer(widths: seq<real>, containerWidth: real)
    requires AutoCount(widths) > 0
    ensures Sum(Resolve(widths, containerWidth)) == containerWidth
  {
    var k := AutoCount(widths);
    var share := AutoShare(widths, containerWidth);
    assert Resolve(widths, containerWidth) == Fill(widths, share);
    FillSum(widths, share);
    ShareTimesCount(widths, containerWidth);
  }

  /** Consecutive bars tile the row: the bar of segment `i + 1` starts exactly
      one resolved width of segment `i` after the bar of segment `i`, so the
      gap between two neighbouring bars is twice the padding. */
  lemma {:induction false} ConsecutiveBarsTile(widths: seq<real>, containerWidth: real, i: nat, padding: real)
    requires i + 1 < |widths|
    ensures Slider(widths, containerWidth, i + 1, padding).leftSpacing
            == Slider(widths, containerWidth, i, padding).leftSpacing + Resolve(widths, containerWidth)[i]
    ensures Slider(widths, containerWidth, i + 1, padding).leftSpacing
            == Slider(widths, containerWidth, i, padding).leftSpacing
               + Slider(widths, containerWidth, i, padding).width + 2.0 * padding
  {
    var r := Resolve(widths, containerWidth);
    assert r[..i + 1][..i] == r[..i];
  }

  /** With auto segments and the last segment selected, the bar ends exactly
      `padding` before the container's right edge. */
  lemma LastSegmentEndsBeforeEdge(widths: seq<real>, containerWidth: real, padding: real)
    requires |widths| > 0 && AutoCount(widths) > 0
    ensures var g := Slider(widths, containerWidth, |widths| - 1, padding);
            g.leftSpacing + g.width == containerWidth - padding
  {
    var resolved := Resolve(widths, containerWidth);
    assert resolved[..|widths|] == resolved;
    ResolveFillsContainer(widths, containerWidth);
  }

  /** With no auto segment the container width plays no part, and the last
      segment's bar ends `padding` before the sum of the reported widths (which
      is the container's right edge only if those widths happen to fill it). */
  lemma NoAutoIgnoresContainer(widths: seq<real>, c1: real, c2: real, selected: int, padding: real)
    requires AutoCount(widths) == 0 && selected < |widths|
    ensures Slider(widths, c1, selected, padding) == Slider(widths, c2, selected, padding)
    ensures 0 <= selected == |widths| - 1 ==>
              var g := Slider(widths, c1, selected, padding);
              g.leftSpacing + g.width + padding == Sum(widths)
  {
    if 0 <= selected == |widths| - 1 {
      assert Resolve(widths, c1)[..selected + 1] == widths;
    }
  }

  /** Segments of one common width `w`: the bar of segment `i` starts at
      `i * u + padding` and is `u - 2 * padding` wide, where `u` is `w` for
      explicit widths and the container split equally when all are auto. */
  lemma UniformSegments(widths: seq<real>, w: real, containerWidth: real, selected: int, padding: real)
    requires 0 <= selected < |widths|
    requires forall i :: 0 <= i < |widths| ==> widths[i] == w
    ensures var u := if w != 0.0 then w else containerWidth / |widths| as real;
            Slider(widths, containerWidth, selected, padding)
              == Indicator(selected as real * u + padding, u - 2.0 * padding)
  {
    var u := if w != 0.0 then w else containerWidth / |widths| as real;
    var resolved := Resolve(widths, containerWidth);
    AutoCountExact(widths);
    if w == 0.0 {
      SumOfConstant(widths, 0.0);
      assert AutoShare(widths, containerWidth) == u;
    }
    assert forall i :: 0 <= i < |resolved| ==> resolved[i] == u;
    SumOfConstant(resolved[..selected], u);
  }

  /** Nothing clamps the width: a padding wider than half the segment makes it negative. */
  lemma NegativeWidthNotClamped()
    ensures Slider([10.0], 10.0, 0, 6.0) == Indicator(6.0, -2.0)
  {
    assert AutoCount([10.0]) == 0;
    assert [10.0][..0] == [];
  }

  /** Non-negative reported widths whose sum fits the container resolve to
      non-negative widths: the equal share is then never negative. */
  lemma ResolvedNonNegative(widths: seq<real>, containerWidth: real)
    requires forall i :: 0 <= i < |widths| ==> widths[i] >= 0.0
    requires Sum(widths) <= containerWidth
    ensures forall i :: 0 <= i < |widths| ==> Resolve(widths, containerWidth)[i] >= 0.0
  {
    if AutoCount(widths) > 0 {
      QuotientNonNegative(containerWidth - Sum(widths), AutoCount(widths) as real);
    }
  }

  /** When the reported widths are non-negative and the explicit ones fit in the
      container, the bar starts at or after `padding` and is at least
      `-2 * padding` wide. */
  lemma GeometryBounds(widths: seq<real>, containerWidth: real, selected: int, padding: real)
    requires 0 <= selected < |widths|
    requires forall i :: 0 <= i < |widths| ==> widths[i] >= 0.0
    requires Sum(widths) <= containerWidth
    ensures Slider(widths, containerWidth, selected, padding).leftSpacing >= padding
    ensures Slider(widths, containerWidth, selected, padding).width >= -2.0 * padding
  {
    var resolved := Resolve(widths, containerWidth);
    ResolvedNonNegative(widths, containerWidth);
    SumNonNegative(resolved[..selected]);
  }

  /** Three worked layouts: all auto, all explicit, and mixed. */
  lemma WorkedExamples()
    ensures Slider([0.0, 0.0, 0.0], 300.0, 1, 3.0) == Indicator(103.0, 94.0)
    ensures Slider([120.0, 80.0], 200.0, 0, 0.0) == Indicator(0.0, 120.0)
    ensures Slider([50.0, 0.0, 0.0], 250.0, 2, 5.0) == Indicator(155.0, 90.0)
  {
    UniformSegments([0.0, 0.0, 0.0], 0.0, 300.0, 1, 3.0);
    assert AutoCount([120.0, 80.0]) == 0;
    assert [120.0, 80.0][..0] == [];
    var c := [50.0, 0.0, 0.0];
    assert AutoCount(c) == 2 by {
      assert c[..2] == [50.0, 0.0] && c[..2][..1] == [50.0] && c[..2][..1][..0] == [];
    }
    assert Sum(c) == 50.0 by {
      ExplicitSum(c);
      assert c[..2] == [50.0, 0.0] && c[..2][..1] == [50.0] && c[..2][..1][..0] == [];
    }
    var r := Resolve(c, 250.0);
    assert r == [50.0, 100.0, 100.0];
    assert r[..2] == [50.0, 100.0] && r[..2][..1] == [50.0] && r[..2][..1][..0] == [];
  }
}
