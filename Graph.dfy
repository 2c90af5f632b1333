// The hourly graph view (GraphView.kt): the reveal percentage, the 24 hourly
// sums and the category title `setPayments` stores, the size `onMeasure`
// settles on, and the pass of `onDraw` over grid lines, labels, hour columns
// and polyline segments.

module Graph {
  import opened Common
  import opened Payments
  import opened Sorting
  import opened Geometry
  import opened GraphMath

  /** Android's default `Paint` text size. */
  const DEFAULT_TEXT_SIZE: int := 12

  class GraphView {
    var percent: int
    /** `payments`: the sum paid in each hour of the day. */
    const buckets: array<int>
    var drawGraph: bool
    var category: string
    /** `gridText.textSize`. */
    var textSize: int
    var measuredWidth: int
    var measuredHeight: int
    var visible: bool
    /** The laid-out size and paddings `onDraw` reads. */
    var frame: Frame

    ghost predicate Valid()
      reads this
    {
      && buckets.Length == HOURS
      && 0 <= percent <= 100
      && 0 <= textSize <= MAX_TEXT_SIZE
    }

    constructor (frame: Frame)
      ensures Valid() && fresh(buckets)
      ensures buckets[..] == seq(HOURS, _ => 0)
      ensures percent == 100 && !drawGraph && category == ""
      ensures textSize == DEFAULT_TEXT_SIZE && visible
      ensures measuredWidth == 0 && measuredHeight == 0 && this.frame == frame
    {
      percent := 100;
      buckets := new int[HOURS](_ => 0);
      drawGraph := false;
      category := "";
      textSize := DEFAULT_TEXT_SIZE;
      measuredWidth := 0;
      measuredHeight := 0;
      visible := true;
      this.frame := frame;
    }

    /** The `percent` setter: stores the value clamped into 0..100 and
        touches nothing else. */
    method SetPercent(value: int)
      requires Valid()
      modifies this`percent
      ensures Valid() && percent == Clamp(value)
    {
      percent := if value < 0 then 0 else if value > 100 then 100 else value;
    }

    /** `setPayments`: sorts by time, takes the earliest payment's category
        as the title, zeroes the hourly sums and adds every amount to the sum
        of its hour. */
    method SetPayments(ps: seq<Payment>, hourOf: int -> int)
      requires Valid() && HoursInRange(hourOf)
      modifies buckets, this`drawGraph, this`category
      ensures Valid()
      ensures drawGraph <==> ps != []
      ensures category == if ps == [] then "" else SortBy(ps, Time)[0].category
      ensures ps != [] ==> exists p :: p in ps && p.category == category && forall q :: q in ps ==> p.time <= q.time
      ensures buckets[..] == Hourly(ps, hourOf)
    {
      var p := SortBy(ps, Time);
      drawGraph := |p| > 0;
      category := if drawGraph then p[0].category else "";
      if drawGraph {
        SortByFirstIsLeast(ps, Time);
      }
      ZeroBuckets(buckets);
      AddPayments(buckets, p, hourOf);
      HourlyOrderFree(ps, hourOf);
    }

    /** `onMeasure`, with `resolveSize` for each dimension as a given
        function of the desired size. */
    method OnMeasure(resolveWidth: int -> int, resolveHeight: int -> int)
      requires Valid()
      modifies this`measuredWidth, this`measuredHeight, this`textSize, this`visible
      ensures Valid()
      ensures var f := frame;
        var m := Measure(resolveWidth(DesiredWidth(f.paddingLeft, f.paddingRight)),
                         resolveHeight(DesiredHeight(f.paddingTop, f.paddingBottom)),
                         f.paddingLeft, f.paddingTop, f.paddingRight, f.paddingBottom);
        && measuredWidth == m.width && measuredHeight == m.height
        && textSize == m.textSize && visible == m.visible
    {
      var f := frame;
      var rw := resolveWidth(DesiredWidth(f.paddingLeft, f.paddingRight));
      var rh := resolveHeight(DesiredHeight(f.paddingTop, f.paddingBottom));
      var m := Measure(rw, rh, f.paddingLeft, f.paddingTop, f.paddingRight, f.paddingBottom);
      measuredWidth := m.width;
      measuredHeight := m.height;
      textSize := m.textSize;
      visible := m.visible;
    }

    /** `onDraw`: nothing without payments; otherwise the five grid lines
        stepping down from the top, their labels when the text size is
        positive, then the 24 hour columns stepping right from the left
        padding and the segment into every hour after the first. The label
        width, which the source takes as the largest measured width of the
        values `amount - k * (amount / 4)` for k = 0..3, is given. */
    method OnDraw(labelWidth: real) returns (plan: Option<Plan>)
      requires Valid() && labelWidth >= 0.0
      requires drawGraph ==> MaxOf(buckets[..]) != 0
      ensures !drawGraph ==> plan == None
      ensures drawGraph ==> plan == Some(PlanOf(frame, labelWidth, percent, buckets[..], textSize))
    {
      if !drawGraph {
        return None;
      }
      var f := frame;
      var amount := MaxOf(buckets[..]);
      var lines, toY := GridLines(f);
      var labels := if textSize > 0 then GridLabels(amount) else [];
      var columns, segments := WalkHours(f, labelWidth, percent, buckets[..], toY);
      plan := Some(Plan(lines, labels, columns, segments));
    }
  }

  /** The zeroing loop of `setPayments`. */
  method ZeroBuckets(buckets: array<int>)
    modifies buckets
    ensures buckets[..] == seq(buckets.Length, _ => 0)
  {
    for hour := 0 to buckets.Length
      invariant forall j :: 0 <= j < hour ==> buckets[j] == 0
    {
      buckets[hour] := 0;
    }
  }

  /** The accumulation loop of `setPayments`: each payment's amount is added
      to the sum of its hour. */
  method AddPayments(buckets: array<int>, p: seq<Payment>, hourOf: int -> int)
    requires buckets.Length == HOURS && HoursInRange(hourOf)
    requires buckets[..] == seq(HOURS, _ => 0)
    modifies buckets
    ensures buckets[..] == Hourly(p, hourOf)
  {
    assert buckets[..] == Hourly(p[..0], hourOf);
    for i := 0 to |p|
      invariant buckets[..] == Hourly(p[..i], hourOf)
    {
      var h := hourOf(p[i].time);
      HourlySnoc(p[..i], p[i], hourOf);
      buckets[h] := buckets[h] + p[i].amount;
      assert p[..i + 1] == p[..i] + [p[i]];
    }
    assert p[..|p|] == p;
  }

  /** The horizontal grid loop of `onDraw`: five lines, a row step apart,
      from the top line down; `toY` is the last of them. */
  method GridLines(f: Frame) returns (lines: seq<int>, toY: int)
    ensures lines == Lines(f, HORIZONTAL_LINES - 1)
    ensures toY == BottomY(f)
  {
    var delta := Quot(f.height - f.paddingTop - f.paddingBottom, HORIZONTAL_LINES);
    var fromY := f.paddingTop + delta;
    lines := [];
    for k := 0 to HORIZONTAL_LINES - 1
      invariant fromY == LineY(f, k)
      invariant lines == Lines(f, k)
    {
      lines := lines + [fromY];
      fromY := fromY + delta;
    }
    toY := fromY - delta;
  }

  /** The hour loop of `onDraw`: a column per hour, a column step apart from
      the left padding, and the clipped segment into every hour after the
      first. */
  method WalkHours(f: Frame, labelWidth: real, percent: int, buckets: seq<int>, toY: int)
      returns (columns: seq<real>, segments: seq<Segment>)
    requires |buckets| == HOURS && MaxOf(buckets) != 0 && toY == BottomY(f)
    ensures columns == Columns(f, labelWidth, HOURS)
    ensures segments == Segments(f, labelWidth, percent, buckets, HOURS - 1)
  {
    var amount := MaxOf(buckets);
    var fromY := TopY(f);
    var step := Quot(TruncReal(LabelX(f, labelWidth) - f.paddingLeft as real), COLUMNS);
    var fromX := f.paddingLeft as real;
    var cost := (toY - fromY) as real / amount as real;
    var maxX := ((f.width - f.paddingLeft - f.paddingRight) * percent) as real / 100.0;
    assert step == ColumnDelta(f, labelWidth) && cost == Cost(f, amount) && maxX == RevealX(f, percent);
    columns := [];
    segments := [];
    for hour := 0 to HOURS
      invariant fromX == Column(f, labelWidth, hour)
      invariant columns == Columns(f, labelWidth, hour)
      invariant segments == Segments(f, labelWidth, percent, buckets, if hour == 0 then 0 else hour - 1)
    {
      ColumnsSnoc(f, labelWidth, hour);
      columns := columns + [fromX];
      if hour > 0 {
        var segment := SegmentTo(f, labelWidth, percent, buckets, hour, fromX, step, maxX, cost, toY);
        SegmentsSnoc(f, labelWidth, percent, buckets, hour - 1);
        segments := segments + [segment];
      }
      fromX := fromX + step as real;
    }
  }

  /** One segment of the hour loop: from the previous hour's point to the
      point of hour `h`, clipped at the reveal line. */
  method SegmentTo(f: Frame, labelWidth: real, percent: int, buckets: seq<int>, h: int,
                   fromX: real, step: int, maxX: real, cost: real, toY: int) returns (segment: Segment)
    requires |buckets| == HOURS && MaxOf(buckets) != 0 && 1 <= h < HOURS
    requires fromX == Column(f, labelWidth, h) && step == ColumnDelta(f, labelWidth)
    requires maxX == RevealX(f, percent) && cost == Cost(f, MaxOf(buckets)) && toY == BottomY(f)
    ensures segment == SegmentInto(f, labelWidth, percent, buckets, h)
  {
    var y1 := PlotAt(f, MaxOf(buckets), buckets[h - 1], toY, cost);
    var maxY := PlotAt(f, MaxOf(buckets), buckets[h], toY, cost);
    segment := Clip(fromX, step, maxX, y1, maxY);
  }

  /** The height of a value, `cost` pixels per unit above the bottom grid
      line. */
  method PlotAt(f: Frame, amount: int, v: int, toY: int, cost: real) returns (y: real)
    requires amount != 0 && toY == BottomY(f) && cost == Cost(f, amount)
    ensures y == PlotY(f, amount, v)
  {
    y := toY as real - cost * v as real;
  }
}
