// What `calculateRectangles` writes into the chart's ten slots, and which
// slot a touch resolves to. Each category's slot is found by
// `chartCategories.indexOf(it)`, the first entry equal to it; a slot the
// current categories do not reach keeps its old paint and arc, with an empty
// rectangle.

module ChartLayout {
  import opened Common
  import opened Payments
  import opened Sorting
  import opened Geometry
  import Aggregation

  const SLOTS: nat := Aggregation.MAX_CATEGORIES
  const STROKE_WIDTH: int := 4

  datatype Mode = Pie | Bar

  /** `List.indexOf`: the first position holding an equal entry. */
  function IndexOf(cats: seq<Category>, c: Category): (i: nat)
    requires c in cats
    ensures i < |cats| && cats[i] == c
    ensures forall j :: 0 <= j < i ==> cats[j] != c
  {
    if cats[0] == c then 0 else 1 + IndexOf(cats[1..], c)
  }

  lemma {:induction false} IndexOfDistinct(cats: seq<Category>, k: nat)
    requires Distinct(cats) && k < |cats|
    ensures IndexOf(cats, cats[k]) == k
  {
  }

  function Total(cats: seq<Category>): int
  {
    SumBy(cats, CategoryAmount)
  }

  /** Every rectangle emptied; paints and arcs kept. */
  function Cleared(slots: seq<Primitive>): (r: seq<Primitive>)
    ensures |r| == |slots|
    ensures forall i :: 0 <= i < |slots| ==> r[i] == slots[i].(rect := EMPTY)
  {
    seq(|slots|, i requires 0 <= i < |slots| => slots[i].(rect := EMPTY))
  }

  // ---------------------------------------------------------------- bars

  /** The bar top: the first category's amount reaches the top edge. */
  function BarTop(f: Frame, amount: int, maxAmount: int): real
    requires maxAmount != 0
  {
    f.height as real * (1.0 - amount as real / maxAmount as real) - f.paddingTop as real
  }

  /** The bar of the `k`-th category: one column of `width / n` pixels, less
      twice the stroke width of gap. */
  function BarRect(f: Frame, cats: seq<Category>, k: nat): Rect
    requires k < |cats| && cats[0].amount != 0
  {
    var delta := f.width / |cats|;
    var left := f.paddingLeft + k * delta;
    Rect(left as real, BarTop(f, cats[k].amount, cats[0].amount),
         (left + delta - 2 * STROKE_WIDTH) as real, (f.height - f.paddingBottom) as real)
  }

  function BarSlot(p: Primitive, rect: Rect, color: int): Primitive
  {
    p.(rect := rect, paint := Paint(STROKE_WIDTH as real, Fill, color))
  }

  ghost predicate FoldArgs(cats: seq<Category>, colors: seq<int>, base: seq<Primitive>, k: nat)
  {
    |colors| == SLOTS && |base| == SLOTS && |cats| <= SLOTS && k <= |cats|
  }

  /** The slots after the first `k` categories of the bar loop. */
  function BarFold(f: Frame, cats: seq<Category>, colors: seq<int>, base: seq<Primitive>, k: nat): (r: seq<Primitive>)
    requires FoldArgs(cats, colors, base, k) && (cats != [] ==> cats[0].amount != 0)
    ensures |r| == SLOTS
    ensures forall j :: k <= j < SLOTS ==> r[j] == base[j]
  {
    if k == 0 then base
    else
      var prev := BarFold(f, cats, colors, base, k - 1);
      var i := IndexOf(cats, cats[k - 1]);
      prev[i := BarSlot(prev[i], BarRect(f, cats, k - 1), colors[i])]
  }

  // ---------------------------------------------------------------- pie

  /** The arc of one category: its share of 360 degrees, less a 1 degree gap. */
  function Sweep(amount: int, total: int): real
    requires total != 0
  {
    amount as real / total as real * 360.0 - 1.0
  }

  /** The start angle of the `k`-th category: each earlier arc and its gap. */
  function StartAt(cats: seq<Category>, total: int, k: nat): real
    requires total != 0 && k <= |cats|
  {
    if k == 0 then 0.0 else StartAt(cats, total, k - 1) + Sweep(cats[k - 1].amount, total) + 1.0
  }

  function Radius(f: Frame): nat
  {
    Min(f.width, f.height) / 2
  }

  function RingWidth(f: Frame): nat
  {
    Radius(f) / 4
  }

  /** The square every ring arc is drawn in, inset by the ring width. */
  function PieRect(f: Frame): Rect
  {
    var r, w := Radius(f), RingWidth(f);
    var cx, cy := f.paddingLeft + f.width / 2, f.paddingTop + f.height / 2;
    Rect((cx - r + w) as real, (cy - r + w) as real, (cx + r - w) as real, (cy + r - w) as real)
  }

  function PieSlot(f: Frame, color: int, start: real, sweep: real): Primitive
  {
    Primitive(PieRect(f), Paint(RingWidth(f) as real, Stroke, color), start, sweep)
  }

  /** The slots after the first `k` categories of the pie loop. */
  function PieFold(f: Frame, cats: seq<Category>, colors: seq<int>, base: seq<Primitive>, total: int, k: nat): (r: seq<Primitive>)
    requires FoldArgs(cats, colors, base, k) && total != 0
    ensures |r| == SLOTS
    ensures forall j :: k <= j < SLOTS ==> r[j] == base[j]
  {
    if k == 0 then base
    else
      var prev := PieFold(f, cats, colors, base, total, k - 1);
      var i := IndexOf(cats, cats[k - 1]);
      prev[i := PieSlot(f, colors[i], StartAt(cats, total, k - 1), Sweep(cats[k - 1].amount, total))]
  }

  // ---------------------------------------------------------------- layout

  /** The divisions the layout performs are defined: the first amount in bar
      mode, the total in pie mode. */
  predicate LayoutDefined(mode: Mode, cats: seq<Category>)
  {
    cats != [] ==> if mode == Bar then cats[0].amount != 0 else Total(cats) != 0
  }

  /** The slots `calculateRectangles` leaves. */
  function Layout(mode: Mode, f: Frame, cats: seq<Category>, colors: seq<int>, slots: seq<Primitive>): (r: seq<Primitive>)
    requires |colors| == SLOTS && |slots| == SLOTS && |cats| <= SLOTS && LayoutDefined(mode, cats)
    ensures |r| == SLOTS
  {
    if cats == [] then Cleared(slots)
    else if mode == Bar then BarFold(f, cats, colors, Cleared(slots), |cats|)
    else PieFold(f, cats, colors, Cleared(slots), Total(cats), |cats|)
  }

  /** Slots past the categories keep their paint and arc, with an empty
      rectangle, whatever the categories are. */
  lemma {:induction false} LayoutTail(mode: Mode, f: Frame, cats: seq<Category>, colors: seq<int>, slots: seq<Primitive>)
    requires |colors| == SLOTS && |slots| == SLOTS && |cats| <= SLOTS && LayoutDefined(mode, cats)
    ensures forall j :: |cats| <= j < SLOTS ==>
      Layout(mode, f, cats, colors, slots)[j] == slots[j].(rect := EMPTY)
    ensures forall j :: |cats| <= j < SLOTS ==> IsEmpty(Layout(mode, f, cats, colors, slots)[j].rect)
  {
  }

  /** With distinct categories, the bar loop gives the `i`-th category slot `i`. */
  lemma {:induction false} BarFoldDistinct(f: Frame, cats: seq<Category>, colors: seq<int>, base: seq<Primitive>, k: nat)
    requires FoldArgs(cats, colors, base, k) && cats != [] && cats[0].amount != 0 && Distinct(cats)
    ensures forall i :: 0 <= i < k ==>
      BarFold(f, cats, colors, base, k)[i] == BarSlot(base[i], BarRect(f, cats, i), colors[i])
  {
    if k > 0 {
      BarFoldDistinct(f, cats, colors, base, k - 1);
      IndexOfDistinct(cats, k - 1);
      var prev := BarFold(f, cats, colors, base, k - 1);
      assert BarFold(f, cats, colors, base, k)
        == prev[k - 1 := BarSlot(prev[k - 1], BarRect(f, cats, k - 1), colors[k - 1])];
    }
  }

  /** With distinct categories, the pie loop gives the `i`-th category slot `i`. */
  lemma {:induction false} PieFoldDistinct(f: Frame, cats: seq<Category>, colors: seq<int>, base: seq<Primitive>, total: int, k: nat)
    requires FoldArgs(cats, colors, base, k) && total != 0 && Distinct(cats)
    ensures forall i :: 0 <= i < k ==>
      PieFold(f, cats, colors, base, total, k)[i] == PieSlot(f, colors[i], StartAt(cats, total, i), Sweep(cats[i].amount, total))
  {
    if k > 0 {
      PieFoldDistinct(f, cats, colors, base, total, k - 1);
      IndexOfDistinct(cats, k - 1);
      var prev := PieFold(f, cats, colors, base, total, k - 1);
      assert PieFold(f, cats, colors, base, total, k)
        == prev[k - 1 := PieSlot(f, colors[k - 1], StartAt(cats, total, k - 1), Sweep(cats[k - 1].amount, total))];
    }
  }

  /** The bar layout of distinct categories: slot `i` is the `i`-th bar,
      filled in `colors[i]`, its arc untouched. */
  lemma {:induction false} BarLayoutSlots(f: Frame, cats: seq<Category>, colors: seq<int>, slots: seq<Primitive>)
    requires |colors| == SLOTS && |slots| == SLOTS && |cats| <= SLOTS
    requires cats != [] && cats[0].amount != 0 && Distinct(cats)
    ensures forall i :: 0 <= i < |cats| ==>
      Layout(Bar, f, cats, colors, slots)[i] ==
        Primitive(BarRect(f, cats, i), Paint(STROKE_WIDTH as real, Fill, colors[i]), slots[i].start, slots[i].end)
  {
    BarFoldDistinct(f, cats, colors, Cleared(slots), |cats|);
  }

  /** The pie layout of distinct categories: slot `i` is the `i`-th arc,
      stroked in `colors[i]` on the shared square. */
  lemma {:induction false} PieLayoutSlots(f: Frame, cats: seq<Category>, colors: seq<int>, slots: seq<Primitive>)
    requires |colors| == SLOTS && |slots| == SLOTS && |cats| <= SLOTS
    requires cats != [] && Total(cats) != 0 && Distinct(cats)
    ensures forall i :: 0 <= i < |cats| ==>
      Layout(Pie, f, cats, colors, slots)[i] ==
        Primitive(PieRect(f), Paint(RingWidth(f) as real, Stroke, colors[i]),
                  StartAt(cats, Total(cats), i), Sweep(cats[i].amount, Total(cats)))
  {
    PieFoldDistinct(f, cats, colors, Cleared(slots), Total(cats), |cats|);
  }

  lemma {:induction false} MulMono(a: nat, b: nat, d: nat)
    requires a <= b
    ensures a * d <= b * d
  {
  }

  /** Bars stand side by side: each starts one column after the previous
      one, and the gap between them is twice the stroke width. Columns start
      at `paddingLeft` and split the whole width, so the last bar ends at
      most at `paddingLeft + width - 8`, which can lie past the view's right
      edge when `paddingLeft` exceeds 8, since `paddingRight` is not taken
      into account. */
  lemma {:induction false} BarsTile(f: Frame, cats: seq<Category>, i: nat)
    requires cats != [] && cats[0].amount != 0 && i < |cats|
    ensures BarRect(f, cats, i).left == (f.paddingLeft + i * (f.width / |cats|)) as real
    ensures BarRect(f, cats, i).right == BarRect(f, cats, i).left + (f.width / |cats| - 2 * STROKE_WIDTH) as real
    ensures i + 1 < |cats| ==> BarRect(f, cats, i + 1).left == BarRect(f, cats, i).right + (2 * STROKE_WIDTH) as real
    ensures BarRect(f, cats, i).right <= (f.paddingLeft + f.width - 2 * STROKE_WIDTH) as real
  {
    var n, delta := |cats|, f.width / |cats|;
    MulMono(i + 1, n, delta);
    assert (i + 1) * delta == i * delta + delta;
    assert n * delta <= f.width;
  }

  /** Bar heights: measured from the line `height - paddingTop`, a bar is
      `height * amount / amount_0` tall, so a larger amount never gives a
      lower top. */
  lemma {:induction false} BarHeights(f: Frame, cats: seq<Category>, i: nat, j: nat)
    requires cats != [] && cats[0].amount > 0 && i < |cats| && j < |cats| && f.height > 0
    ensures (f.height - f.paddingTop) as real - BarRect(f, cats, i).top
      == f.height as real * cats[i].amount as real / cats[0].amount as real
    ensures BarRect(f, cats, i).top <= BarRect(f, cats, j).top <==> cats[i].amount >= cats[j].amount
    ensures BarRect(f, cats, 0).top == -f.paddingTop as real
  {
    var h, m := f.height as real, cats[0].amount as real;
    var ai, aj := cats[i].amount as real, cats[j].amount as real;
    assert BarRect(f, cats, i).top == h * (1.0 - ai / m) - f.paddingTop as real;
    assert BarRect(f, cats, j).top == h * (1.0 - aj / m) - f.paddingTop as real;
    ScaledDrop(h, m, ai, aj);
  }

  /** The drop `h * (1 - a / m)` shrinks as `a` grows, and leaves
      `h * a / m` of the height. */
  lemma {:induction false} ScaledDrop(h: real, m: real, a: real, b: real)
    requires h > 0.0 && m > 0.0
    ensures h - h * (1.0 - a / m) == h * a / m
    ensures h * (1.0 - a / m) <= h * (1.0 - b / m) <==> a >= b
    ensures a == m ==> h * (1.0 - a / m) == 0.0
  {
    var p, q := a / m, b / m;
    assert a == p * m && b == q * m;
    assert h * (1.0 - q) - h * (1.0 - p) == h * (p - q);
    assert a - b == (p - q) * m;
    if p > q {
      assert h * (p - q) > 0.0;
    } else if p < q {
      assert h * (q - p) > 0.0;
    }
  }

  /** Arc `k` starts at the first `k` amounts' share of 360 degrees: each arc
      and the one-degree gap after it take exactly its amount's share. */
  lemma {:induction false} StartAtShare(cats: seq<Category>, total: int, k: nat)
    requires total != 0 && k <= |cats|
    ensures StartAt(cats, total, k) * total as real == Total(cats[..k]) as real * 360.0
  {
    if k > 0 {
      StartAtShare(cats, total, k - 1);
      assert cats[..k] == cats[..k - 1] + [cats[k - 1]];
      SumBySnoc(cats[..k - 1], cats[k - 1], CategoryAmount);
      var t, a := total as real, cats[k - 1].amount as real;
      assert (a / t * 360.0) * t == a * 360.0;
    }
  }

  lemma {:induction false} ZeroProduct(x: real, y: real)
    requires x * y == 0.0 && y != 0.0
    ensures x == 0.0
  {
    assert x == x * y / y;
  }

  /** The arcs and their gaps fill the circle exactly once: the start after
      the last arc is 360 degrees. */
  lemma {:induction false} PieCoversCircle(cats: seq<Category>)
    requires Total(cats) != 0
    ensures StartAt(cats, Total(cats), |cats|) == 360.0
  {
    StartAtShare(cats, Total(cats), |cats|);
    assert cats[..|cats|] == cats;
    var a, t := StartAt(cats, Total(cats), |cats|), Total(cats) as real;
    assert (a - 360.0) * t == 0.0;
    ZeroProduct(a - 360.0, t);
  }

  ghost predicate NonNegative(cats: seq<Category>)
  {
    forall i :: 0 <= i < |cats| ==> cats[i].amount >= 0
  }

  /** With no negative amounts, each arc ends before any later arc starts:
      the arcs are disjoint and in order around the circle. */
  lemma {:induction false} ArcsDisjoint(cats: seq<Category>, total: int, i: nat, j: nat)
    requires total > 0 && NonNegative(cats) && i < j <= |cats|
    ensures StartAt(cats, total, i) + Sweep(cats[i].amount, total) < StartAt(cats, total, j)
  {
    if j > i + 1 {
      ArcsDisjoint(cats, total, i, j - 1);
      var a, t := cats[j - 1].amount as real, total as real;
      assert a / t >= 0.0;
    }
  }

  // ---------------------------------------------------------------- touch

  /** The first slot that answers the touch (`Array.find`), by position. */
  function FirstHit(slots: seq<Primitive>, probe: Probe): (r: Option<nat>)
    ensures r.Some? ==> r.value < |slots| && Hits(slots[r.value], probe)
    ensures r.Some? ==> forall j :: 0 <= j < r.value ==> !Hits(slots[j], probe)
    ensures r.None? <==> forall j :: 0 <= j < |slots| ==> !Hits(slots[j], probe)
  {
    if slots == [] then None
    else if Hits(slots[0], probe) then Some(0)
    else match FirstHit(slots[1..], probe)
      case None => None
      case Some(i) => assert slots[1..][i] == slots[i + 1]; Some(i + 1)
  }

  /** A point inside the `i`-th bar selects slot `i`. */
  lemma {:induction false} BarTouchSelects(f: Frame, cats: seq<Category>, colors: seq<int>, slots: seq<Primitive>, i: nat, x: real, y: real)
    requires |colors| == SLOTS && |slots| == SLOTS && |cats| <= SLOTS
    requires cats != [] && cats[0].amount != 0 && Distinct(cats)
    requires i < |cats| && Contains(BarRect(f, cats, i), x, y)
    ensures FirstHit(Layout(Bar, f, cats, colors, slots), Point(x, y)) == Some(i)
  {
    var r := Layout(Bar, f, cats, colors, slots);
    BarLayoutSlots(f, cats, colors, slots);
    forall j | 0 <= j < i ensures !Hits(r[j], Point(x, y)) {
      BarsTile(f, cats, j);
      BarsTile(f, cats, i);
      MulMono(j + 1, i, f.width / |cats|);
      assert (j + 1) * (f.width / |cats|) == j * (f.width / |cats|) + f.width / |cats|;
    }
  }

  /** A point left of the left padding selects nothing. */
  lemma {:induction false} BarTouchLeftOfPadding(f: Frame, cats: seq<Category>, colors: seq<int>, slots: seq<Primitive>, x: real, y: real)
    requires |colors| == SLOTS && |slots| == SLOTS && |cats| <= SLOTS
    requires cats != [] && cats[0].amount != 0 && Distinct(cats)
    requires x < f.paddingLeft as real
    ensures FirstHit(Layout(Bar, f, cats, colors, slots), Point(x, y)) == None
  {
    var r := Layout(Bar, f, cats, colors, slots);
    BarLayoutSlots(f, cats, colors, slots);
    LayoutTail(Bar, f, cats, colors, slots);
    forall j | 0 <= j < SLOTS ensures !Hits(r[j], Point(x, y)) {
      if j < |cats| { BarsTile(f, cats, j); }
    }
  }

  /** An angle on the `i`-th arc selects slot `i`. */
  lemma {:induction false} PieTouchSelects(f: Frame, cats: seq<Category>, colors: seq<int>, slots: seq<Primitive>, i: nat, angle: real)
    requires |colors| == SLOTS && |slots| == SLOTS && |cats| <= SLOTS
    requires cats != [] && Total(cats) > 0 && NonNegative(cats) && Distinct(cats)
    requires i < |cats|
    requires StartAt(cats, Total(cats), i) <= angle <= StartAt(cats, Total(cats), i) + Sweep(cats[i].amount, Total(cats))
    ensures FirstHit(Layout(Pie, f, cats, colors, slots), Angle(angle)) == Some(i)
  {
    var r := Layout(Pie, f, cats, colors, slots);
    var total := Total(cats);
    PieLayoutSlots(f, cats, colors, slots);
    assert r[i].start == StartAt(cats, total, i) && r[i].end == Sweep(cats[i].amount, total);
    assert Hits(r[i], Angle(angle));
    forall j | 0 <= j < i ensures !Hits(r[j], Angle(angle)) {
      ArcsDisjoint(cats, total, j, i);
      assert r[j].start == StartAt(cats, total, j) && r[j].end == Sweep(cats[j].amount, total);
    }
  }
}
