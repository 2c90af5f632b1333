// The arithmetic of the hourly graph: the 24 hourly sums `setPayments`
// accumulates, the cell and text sizes `onMeasure` derives, the five grid
// labels, the positions of the grid lines and hour columns, and the reveal
// clip that decides how much of each polyline segment `onDraw` draws.

module GraphMath {
  import opened Common
  import opened Payments
  import opened Sorting
  import opened Geometry

  /** The size of the hourly array. */
  const HOURS: nat := 24
  const MAX_TEXT_SIZE: int := 20
  /** `MAX_TEXT_SIZE shl 2`. */
  const GRID_SIZE: int := 80
  const HORIZONTAL_LINES: int := 6
  /** `payments.size - 1`: the steps from the first hour column to the last. */
  const COLUMNS: int := 23
  /** `gridPaint.strokeWidth.toInt()`. */
  const GRID_STROKE: int := 1

  // Hourly sums

  /** The hour (0..23) of every instant: the value `SimpleDateFormat("HH")`
      gives, taken as a given function. */
  ghost predicate HoursInRange(hourOf: int -> int)
  {
    forall t :: 0 <= hourOf(t) < HOURS
  }

  /** What a payment contributes to hour `h`. */
  function HourShare(hourOf: int -> int, h: int): Payment -> int
  {
    (p: Payment) => if hourOf(p.time) == h then p.amount else 0
  }

  /** The sum of the amounts paid during hour `h`. */
  function HourTotal(ps: seq<Payment>, hourOf: int -> int, h: int): int
  {
    SumBy(ps, HourShare(hourOf, h))
  }

  /** The 24 hourly sums. */
  function Hourly(ps: seq<Payment>, hourOf: int -> int): seq<int>
  {
    seq(HOURS, h => HourTotal(ps, hourOf, h))
  }

  /** One more payment adds its amount to its own hour and to no other. */
  lemma {:induction false} HourlySnoc(ps: seq<Payment>, p: Payment, hourOf: int -> int)
    requires HoursInRange(hourOf)
    ensures var b, k := Hourly(ps, hourOf), hourOf(p.time);
      Hourly(ps + [p], hourOf) == b[k := b[k] + p.amount]
  {
    var b, k := Hourly(ps, hourOf), hourOf(p.time);
    forall h | 0 <= h < HOURS
      ensures Hourly(ps + [p], hourOf)[h] == b[k := b[k] + p.amount][h]
    {
      SumBySnoc(ps, p, HourShare(hourOf, h));
    }
  }

  /** The hourly sums add up to the total of all amounts. */
  lemma {:induction false} HourlyConserves(ps: seq<Payment>, hourOf: int -> int)
    requires HoursInRange(hourOf)
    ensures SumInts(Hourly(ps, hourOf)) == SumBy(ps, Amount)
  {
    if ps == [] {
      assert Hourly(ps, hourOf) == seq(HOURS, _ => 0);
      SumIntsZeros(HOURS);
    } else {
      var init, p := ps[..|ps| - 1], ps[|ps| - 1];
      assert ps == init + [p];
      HourlyConserves(init, hourOf);
      HourlySnoc(init, p, hourOf);
      SumIntsBump(Hourly(init, hourOf), hourOf(p.time), p.amount);
      SumBySnoc(init, p, Amount);
    }
  }

  /** The order of the payments does not change the hourly sums, so sorting
      them by time first leaves the sums as they would be unsorted. */
  lemma {:induction false} HourlyOrderFree(ps: seq<Payment>, hourOf: int -> int)
    ensures Hourly(SortBy(ps, Time), hourOf) == Hourly(ps, hourOf)
  {
    forall h | 0 <= h < HOURS
      ensures Hourly(SortBy(ps, Time), hourOf)[h] == Hourly(ps, hourOf)[h]
    {
      SumBySort(ps, Time, HourShare(hourOf, h));
    }
  }

  /** `IntArray.max()` of a non-empty array. */
  function MaxOf(s: seq<int>): (m: int)
    requires |s| > 0
    ensures m in s
    ensures forall i :: 0 <= i < |s| ==> s[i] <= m
  {
    if |s| == 1 then s[0] else Max(s[0], MaxOf(s[1..]))
  }

  // Measurement

  /** What `onMeasure` settles on: the measured size, the label text size
      and the visibility. */
  datatype Measurement = Measurement(width: int, height: int, textSize: int, visible: bool)

  /** The width asked of the parent: a grid cell per hour step plus one,
      and the paddings. */
  function DesiredWidth(paddingLeft: int, paddingRight: int): int
  {
    GRID_SIZE * (COLUMNS + GRID_STROKE) + (paddingLeft + paddingRight)
  }

  /** The height asked of the parent: a grid cell per row plus one, and the
      paddings. */
  function DesiredHeight(paddingTop: int, paddingBottom: int): int
  {
    GRID_SIZE * (HORIZONTAL_LINES + GRID_STROKE) + (paddingTop + paddingBottom)
  }

  /** `g`: the largest whole cell size with which 23 columns and 6 rows both
      fit inside the resolved size less the paddings. */
  function Cell(rw: int, rh: int, paddingLeft: int, paddingTop: int, paddingRight: int, paddingBottom: int): (g: nat)
    ensures var ww, hh := Max(rw - (paddingLeft + paddingRight), 0), Max(rh - (paddingTop + paddingBottom), 0);
      && g * COLUMNS <= ww && g * HORIZONTAL_LINES <= hh
      && ((g + 1) * COLUMNS > ww || (g + 1) * HORIZONTAL_LINES > hh)
  {
    var ww := Max(rw - (paddingLeft + paddingRight), 0);
    var hh := Max(rh - (paddingTop + paddingBottom), 0);
    Min(ww / COLUMNS, hh / HORIZONTAL_LINES)
  }

  /** The arithmetic of `onMeasure`, given the sizes `resolveSize` returned. */
  function Measure(rw: int, rh: int, paddingLeft: int, paddingTop: int, paddingRight: int, paddingBottom: int): (m: Measurement)
    ensures 0 <= m.textSize <= MAX_TEXT_SIZE
    ensures var g := Cell(rw, rh, paddingLeft, paddingTop, paddingRight, paddingBottom);
      m.textSize == Min(g / 2, MAX_TEXT_SIZE)
    ensures m.width <= rw && m.height <= rh
    ensures var g := Cell(rw, rh, paddingLeft, paddingTop, paddingRight, paddingBottom);
      && m.width == (if rw >= paddingLeft + paddingRight then g * COLUMNS + paddingLeft + paddingRight else rw)
      && m.height == (if rh >= paddingTop + paddingBottom then g * HORIZONTAL_LINES + paddingTop + paddingBottom else rh)
    ensures m.visible <==> m.width > 0 && m.height > 0
  {
    var g := Cell(rw, rh, paddingLeft, paddingTop, paddingRight, paddingBottom);
    var ww := Min(g * COLUMNS + (paddingLeft + paddingRight), rw);
    var hh := Min(g * HORIZONTAL_LINES + (paddingTop + paddingBottom), rh);
    Measurement(ww, hh, Min(Max(g / 2, 0), MAX_TEXT_SIZE), ww > 0 && hh > 0)
  }

  /** When the parent grants the desired size and the paddings are not
      negative, the cell is 83, the labels get the largest text size and the
      view is shown. */
  lemma {:induction false} MeasureUnconstrained(paddingLeft: nat, paddingTop: nat, paddingRight: nat, paddingBottom: nat)
    ensures var m := Measure(DesiredWidth(paddingLeft, paddingRight), DesiredHeight(paddingTop, paddingBottom),
                             paddingLeft, paddingTop, paddingRight, paddingBottom);
      && m.textSize == MAX_TEXT_SIZE && m.visible
      && m.width == 83 * COLUMNS + paddingLeft + paddingRight
      && m.height == 83 * HORIZONTAL_LINES + paddingTop + paddingBottom
  {
    var rw, rh := DesiredWidth(paddingLeft, paddingRight), DesiredHeight(paddingTop, paddingBottom);
    assert Cell(rw, rh, paddingLeft, paddingTop, paddingRight, paddingBottom) == Min(1920 / 23, 560 / 6);
  }

  // Grid

  /** The five grid labels, top line first: `amount`, `amount - (amount shr 2)`,
      `amount shr 1`, `amount shr 2` and 0. `shr` is an arithmetic shift,
      that is, division rounded down, which is what `/` by a positive
      divisor does here. */
  function GridLabels(amount: int): seq<int>
  {
    [amount, amount - amount / 4, amount / 2, amount / 4, 0]
  }

  /** The labels start at the maximum and end at 0; label `k` is within
      three quarters of a unit of the value `(4 - k) / 4 * amount` the graph
      plots on grid line `k`; and for a non-negative maximum they never
      increase. */
  lemma {:induction false} GridLabelsApproximate(amount: int)
    ensures var r := GridLabels(amount);
      && |r| == HORIZONTAL_LINES - 1
      && r[0] == amount && r[4] == 0
      && (forall k :: 0 <= k < 5 ==> Abs(4 * r[k] - (4 - k) * amount) <= 3)
      && (amount >= 0 ==> forall k :: 0 < k < 5 ==> r[k] <= r[k - 1])
  {
    var r := GridLabels(amount);
    assert 4 * r[1] - 3 * amount == amount % 4;
    assert 4 * r[2] - 2 * amount == -2 * (amount % 2);
    assert 4 * r[3] - amount == -(amount % 4);
  }

  /** The vertical grid step `(height - paddingTop - paddingBottom) / 6`. */
  function RowDelta(f: Frame): int
  {
    Quot(f.height - f.paddingTop - f.paddingBottom, HORIZONTAL_LINES)
  }

  /** The height of horizontal grid line `k` (0..4). */
  function LineY(f: Frame, k: int): int
  {
    f.paddingTop + (k + 1) * RowDelta(f)
  }

  /** `fromY` after the grid loop's reset: the top grid line. */
  function TopY(f: Frame): int
  {
    LineY(f, 0)
  }

  /** `toY`: the bottom grid line, where hour columns end. */
  function BottomY(f: Frame): int
  {
    LineY(f, HORIZONTAL_LINES - 2)
  }

  /** Where the value labels start: the right edge less the label width. */
  function LabelX(f: Frame, labelWidth: real): real
  {
    (f.width - f.paddingRight) as real - labelWidth
  }

  /** The horizontal step between hour columns:
      `(fromX - paddingLeft).toInt() / 23`. */
  function ColumnDelta(f: Frame, labelWidth: real): int
  {
    Quot(TruncReal(LabelX(f, labelWidth) - f.paddingLeft as real), COLUMNS)
  }

  /** The x position of hour column `h`. */
  function Column(f: Frame, labelWidth: real, h: int): real
  {
    f.paddingLeft as real + (h * ColumnDelta(f, labelWidth)) as real
  }

  /** The hour columns step evenly and, when the labels leave room, the last
      column is left of the value labels. */
  lemma {:induction false} ColumnsFit(f: Frame, labelWidth: real, h: int)
    requires 0 <= h <= COLUMNS
    ensures Column(f, labelWidth, h + 1) - Column(f, labelWidth, h) == ColumnDelta(f, labelWidth) as real
    ensures LabelX(f, labelWidth) >= f.paddingLeft as real ==>
      f.paddingLeft as real <= Column(f, labelWidth, h) <= Column(f, labelWidth, COLUMNS) <= LabelX(f, labelWidth)
  {
    var d := ColumnDelta(f, labelWidth);
    assert (h + 1) * d == h * d + d;
    if LabelX(f, labelWidth) >= f.paddingLeft as real {
      var t := TruncReal(LabelX(f, labelWidth) - f.paddingLeft as real);
      assert d >= 0 && d * COLUMNS <= t;
      MulMonoInt(h, COLUMNS, d);
    }
  }

  lemma {:induction false} MulMonoInt(a: int, b: int, d: int)
    requires 0 <= a <= b && d >= 0
    ensures 0 <= a * d <= b * d
  {
    assert b * d == a * d + (b - a) * d;
  }

  /** `(toY - fromY) / amount`: the height of one unit of money. */
  function Cost(f: Frame, amount: int): real
    requires amount != 0
  {
    (BottomY(f) - TopY(f)) as real / amount as real
  }

  /** The height at which a value is plotted. */
  function PlotY(f: Frame, amount: int, v: int): real
    requires amount != 0
  {
    BottomY(f) as real - Cost(f, amount) * v as real
  }

  /** The largest value is plotted on the top grid line and 0 on the bottom
      one; with a positive grid step and maximum, a larger value is plotted
      higher. */
  lemma {:induction false} PlotSpansGrid(f: Frame, amount: int, v: int, w: int)
    requires amount != 0
    ensures PlotY(f, amount, amount) == TopY(f) as real
    ensures PlotY(f, amount, 0) == BottomY(f) as real
    ensures RowDelta(f) > 0 && amount > 0 && v < w ==> PlotY(f, amount, w) < PlotY(f, amount, v)
  {
    var c := Cost(f, amount);
    assert c * amount as real == (BottomY(f) - TopY(f)) as real;
    if RowDelta(f) > 0 && amount > 0 && v < w {
      assert BottomY(f) - TopY(f) == 4 * RowDelta(f);
      assert c > 0.0;
      assert c * w as real - c * v as real == c * (w - v) as real;
    }
  }

  /** `(width - paddingLeft - paddingRight) * percent / 100f`: how far the
      graph is revealed, measured from the left edge of the view. */
  function RevealX(f: Frame, percent: int): real
  {
    ((f.width - f.paddingLeft - f.paddingRight) * percent) as real / 100.0
  }

  // Reveal clip

  /** How the segment into an hour column is drawn: whole, up to the reveal
      line, with a not-a-number end (a zero column step and the reveal line
      exactly on the column), or not at all. */
  datatype Segment = Whole(x2: real, y2: real) | Clipped(x2: real, y2: real) | NotANumber | Skipped

  /** The straight line through `(x0, y0)` and `(x1, y1)`, at `x`. */
  function LineThrough(x0: real, y0: real, x1: real, y1: real, x: real): real
    requires x0 < x1
  {
    y0 + (x - x0) * (y1 - y0) / (x1 - x0)
  }

  /** The clip of the segment from `(fromX - delta, y1)` to `(fromX, maxY)`
      at the reveal line `maxX`, with the source's two interpolation forms
      for a falling and a rising segment. */
  function Clip(fromX: real, delta: int, maxX: real, y1: real, maxY: real): (s: Segment)
    ensures s.Whole? <==> maxX > fromX
    ensures s.Clipped? || s.NotANumber? <==> fromX - delta as real <= maxX <= fromX
    ensures s.NotANumber? <==> delta == 0 && maxX == fromX
    ensures s.Whole? ==> s.x2 == fromX && s.y2 == maxY
    ensures s.Clipped? ==> s.x2 == maxX && delta > 0
  {
    if maxX > fromX then Whole(fromX, maxY)
    else if fromX - delta as real <= maxX <= fromX then
      if delta == 0 then NotANumber
      else if y1 > maxY then Clipped(maxX, y1 - (maxX - (fromX - delta as real)) * (y1 - maxY) / delta as real)
      else Clipped(maxX, maxY - (fromX - maxX) * (maxY - y1) / delta as real)
    else Skipped
  }

  /** A clipped end lies on the segment: both interpolation forms give the
      point of the line through the segment's ends at the reveal line, which
      lies between the two heights, starts at `y1` and ends at `maxY`. */
  lemma {:induction false} ClipInterpolates(fromX: real, delta: int, maxX: real, y1: real, maxY: real)
    requires Clip(fromX, delta, maxX, y1, maxY).Clipped?
    ensures var s, x0 := Clip(fromX, delta, maxX, y1, maxY), fromX - delta as real;
      && s.y2 == LineThrough(x0, y1, fromX, maxY, maxX)
      && s.y2 == y1 - (maxX - x0) * (y1 - maxY) / delta as real
      && s.y2 == maxY - (fromX - maxX) * (maxY - y1) / delta as real
      && Min2(y1, maxY) <= s.y2 <= Max2(y1, maxY)
      && (maxX == x0 ==> s.y2 == y1)
      && (maxX == fromX ==> s.y2 == maxY)
  {
    var s := Clip(fromX, delta, maxX, y1, maxY);
    var d := delta as real;
    var x0 := fromX - d;
    var a := maxX - x0;
    assert fromX - x0 == d && fromX - maxX == d - a;
    InterpolationForms(d, a, y1, maxY);
    var y := y1 + a / d * (maxY - y1);
    LineThroughAt(x0, y1, fromX, maxY, maxX, d, a);
    if y1 > maxY {
      assert s.y2 == y1 - a * (y1 - maxY) / d;
    } else {
      assert s.y2 == maxY - (d - a) * (maxY - y1) / d;
    }
    assert s.y2 == y;
  }

  lemma {:induction false} LineThroughAt(x0: real, y0: real, x1: real, y1: real, x: real, d: real, a: real)
    requires x1 - x0 == d && x - x0 == a && d > 0.0
    ensures LineThrough(x0, y0, x1, y1, x) == y0 + a * (y1 - y0) / d
  {
  }

  /** The point at distance `a` along a run of length `d` from height `ya`
      to height `yb`, in the three forms used above. */
  lemma {:induction false} InterpolationForms(d: real, a: real, ya: real, yb: real)
    requires d > 0.0 && 0.0 <= a <= d
    ensures var y := ya + a / d * (yb - ya);
      && ya + a * (yb - ya) / d == y
      && ya - a * (ya - yb) / d == y
      && yb - (d - a) * (yb - ya) / d == y
      && Min2(ya, yb) <= y <= Max2(ya, yb)
      && (a == 0.0 ==> y == ya)
      && (a == d ==> y == yb)
  {
    var t := a / d;
    assert a == t * d;
    assert 0.0 <= t <= 1.0;
    assert d - a == (1.0 - t) * d;
    if ya <= yb {
      ScaleBelow(t, yb - ya);
    } else {
      ScaleBelow(t, ya - yb);
    }
  }

  lemma {:induction false} ScaleBelow(t: real, m: real)
    requires 0.0 <= t <= 1.0 && m >= 0.0
    ensures 0.0 <= t * m <= m
  {
    assert m - t * m == (1.0 - t) * m;
  }

  function Min2(a: real, b: real): real
  {
    if a <= b then a else b
  }

  function Max2(a: real, b: real): real
  {
    if a >= b then a else b
  }

  /** Raising the percentage never hides a segment: one drawn whole stays
      whole, one drawn at all stays drawn (for a non-negative inner width). */
  lemma {:induction false} RevealMonotone(f: Frame, p: int, q: int, fromX: real, delta: int, y1: real, maxY: real)
    requires f.width - f.paddingLeft - f.paddingRight >= 0 && p <= q
    ensures Clip(fromX, delta, RevealX(f, p), y1, maxY).Whole? ==> Clip(fromX, delta, RevealX(f, q), y1, maxY).Whole?
    ensures !Clip(fromX, delta, RevealX(f, p), y1, maxY).Skipped? ==> !Clip(fromX, delta, RevealX(f, q), y1, maxY).Skipped?
  {
    var w := f.width - f.paddingLeft - f.paddingRight;
    MulMonoInt(p - p, q - p, w);
    assert w * q == w * p + w * (q - p);
    assert RevealX(f, p) <= RevealX(f, q);
  }

  /** The segment into hour `h` (1..23) of the plotted hourly sums. */
  function SegmentInto(f: Frame, labelWidth: real, percent: int, buckets: seq<int>, h: int): Segment
    requires |buckets| == HOURS && MaxOf(buckets) != 0 && 1 <= h < HOURS
  {
    var amount := MaxOf(buckets);
    Clip(Column(f, labelWidth, h), ColumnDelta(f, labelWidth), RevealX(f, percent),
         PlotY(f, amount, buckets[h - 1]), PlotY(f, amount, buckets[h]))
  }

  /** Without a left padding a full reveal draws every segment to its own
      column at the height of its hour's sum, except when the column step is
      zero: the cut then divides zero by zero and gives not-a-number. */
  lemma {:induction false} FullRevealWithoutLeftPadding(f: Frame, labelWidth: real, buckets: seq<int>, h: int)
    requires |buckets| == HOURS && MaxOf(buckets) != 0 && 1 <= h < HOURS
    requires f.paddingLeft == 0 && 0.0 <= labelWidth <= LabelX(f, 0.0)
    ensures var s := SegmentInto(f, labelWidth, 100, buckets, h);
      && (s.Whole? || s.Clipped? || s.NotANumber?)
      && (!s.NotANumber? ==> s.x2 == Column(f, labelWidth, h) && s.y2 == PlotY(f, MaxOf(buckets), buckets[h]))
      && (s.NotANumber? ==> ColumnDelta(f, labelWidth) == 0)
  {
    var amount := MaxOf(buckets);
    var fromX, d, maxX := Column(f, labelWidth, h), ColumnDelta(f, labelWidth), RevealX(f, 100);
    var y1, maxY := PlotY(f, amount, buckets[h - 1]), PlotY(f, amount, buckets[h]);
    ColumnsFit(f, labelWidth, h);
    assert maxX == (f.width - f.paddingRight) as real;
    assert fromX <= maxX;
    var s := Clip(fromX, d, maxX, y1, maxY);
    if s.Clipped? {
      assert maxX >= fromX - d as real;
      assert maxX == fromX;
      ClipInterpolates(fromX, d, maxX, y1, maxY);
    }
  }

  /** With a left padding the reveal line at 100% stops short of the last
      columns: on a 1000-wide view with a left padding of 100 and no label
      width the column step is 39, the last column sits at 997 and the
      reveal line at 900, so the last segment is not drawn. */
  lemma {:induction false} FullRevealMissesTail(buckets: seq<int>)
    requires |buckets| == HOURS && MaxOf(buckets) != 0
    ensures var f := Frame(1000, 600, 100, 0, 0, 0);
      && ColumnDelta(f, 0.0) == 39
      && Column(f, 0.0, COLUMNS) == 997.0
      && RevealX(f, 100) == 900.0
      && SegmentInto(f, 0.0, 100, buckets, COLUMNS).Skipped?
  {
    var f := Frame(1000, 600, 100, 0, 0, 0);
    assert TruncReal(900.0) == 900;
  }

  /** What one `onDraw` pass lays out: the heights of the five horizontal
      grid lines, the labels drawn beside them (none when the text size is
      0), the x positions of the 24 hour columns and the 23 segments. */
  datatype Plan = Plan(lines: seq<int>, labels: seq<int>, columns: seq<real>, segments: seq<Segment>)

  function Lines(f: Frame, n: nat): seq<int>
  {
    seq(n, k => LineY(f, k))
  }

  function Columns(f: Frame, labelWidth: real, n: nat): seq<real>
  {
    seq(n, h => Column(f, labelWidth, h))
  }

  function Segments(f: Frame, labelWidth: real, percent: int, buckets: seq<int>, n: nat): seq<Segment>
    requires |buckets| == HOURS && MaxOf(buckets) != 0 && n < HOURS
  {
    seq(n, k requires 0 <= k < n => SegmentInto(f, labelWidth, percent, buckets, k + 1))
  }

  lemma {:induction false} ColumnsSnoc(f: Frame, labelWidth: real, n: nat)
    ensures Columns(f, labelWidth, n + 1) == Columns(f, labelWidth, n) + [Column(f, labelWidth, n)]
    ensures Column(f, labelWidth, n + 1) == Column(f, labelWidth, n) + ColumnDelta(f, labelWidth) as real
  {
    var d := ColumnDelta(f, labelWidth);
    assert (n + 1) * d == n * d + d;
  }

  lemma {:induction false} SegmentsSnoc(f: Frame, labelWidth: real, percent: int, buckets: seq<int>, n: nat)
    requires |buckets| == HOURS && MaxOf(buckets) != 0 && n + 1 < HOURS
    ensures Segments(f, labelWidth, percent, buckets, n + 1)
      == Segments(f, labelWidth, percent, buckets, n) + [SegmentInto(f, labelWidth, percent, buckets, n + 1)]
  {
  }

  /** The plan of a full pass over the hourly sums. */
  function PlanOf(f: Frame, labelWidth: real, percent: int, buckets: seq<int>, textSize: int): Plan
    requires |buckets| == HOURS && MaxOf(buckets) != 0
  {
    Plan(Lines(f, HORIZONTAL_LINES - 1),
         if textSize > 0 then GridLabels(MaxOf(buckets)) else [],
         Columns(f, labelWidth, HOURS),
         Segments(f, labelWidth, percent, buckets, HOURS - 1))
  }
}
