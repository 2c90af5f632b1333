// `ChartView`: the category chart. The view keeps the categories it shows,
// a ten-colour palette, ten drawing slots it lays out lazily (the
// `needCalculate` flag), the selected slot (`primitiveIndex`, -1 for none)
// and the animation percentage. Drawing calls, the measure spec and the
// touch-to-angle trigonometry belong to the platform; the angle of a touch
// is an input here.

module Chart {
  import opened Common
  import opened Payments
  import opened Text
  import opened Sorting
  import opened Aggregation
  import opened Palette
  import opened Geometry
  import opened ChartLayout

  /** The chart's preferred size on each axis: 25 pixels per category slot. */
  const CELL: int := 25

  /** What a click leads to: nothing, the callback invoked with a category
      name, or an index past the end of `chartCategories` (the list access
      fails). */
  datatype ClickOutcome = Ignored | Notified(name: string) | IndexOutOfBounds

  /** The probe a touch is resolved with: the point in bar mode, the angle in
      pie mode. */
  function ProbeFor(mode: Mode, x: real, y: real, angle: real): Probe
  {
    if mode == Bar then Point(x, y) else Angle(angle)
  }

  class ChartView {
    var mode: Mode
    var chartCategories: seq<Category>
    var otherCategories: seq<Category>
    const primitives: array<Primitive>
    const colors: array<int>
    /** Whether a selection callback is installed. */
    var hasCallback: bool
    var needCalculate: bool
    var primitiveIndex: int
    /** The bar highlight gradient's colours. */
    var gradientColors: seq<int>
    var percent: int
    /** Size and paddings the framework assigned. */
    var frame: Frame
    var measuredWidth: int
    var measuredHeight: int

    ghost predicate Valid()
      reads this, colors
    {
      && primitives.Length == SLOTS
      && colors.Length == SLOTS
      && Distinct(colors[..])
      && 0 <= percent <= 100
      && -1 <= primitiveIndex < SLOTS
      && |chartCategories| <= SLOTS
    }

    /** The initialiser: ten empty slots and ten colours drawn from the
        random stream, each retried until it differs from all colours taken
        so far. The stream must yield ten different colours, or the retry
        loop would not end. */
    constructor (draws: seq<Rgb>, frame: Frame)
      requires AllValid(draws) && |Fresh(draws)| >= SLOTS
      ensures Valid()
      ensures colors[..] == Fresh(draws)[..SLOTS]
      ensures primitives[..] == seq(SLOTS, _ => DEFAULT_PRIMITIVE)
      ensures mode == Bar && chartCategories == [] && otherCategories == []
      ensures !hasCallback && needCalculate && primitiveIndex == -1 && percent == 100
      ensures this.frame == frame
      ensures fresh(primitives) && fresh(colors)
    {
      mode := Bar;
      chartCategories := [];
      otherCategories := [];
      primitives := new Primitive[SLOTS](_ => DEFAULT_PRIMITIVE);
      colors := new int[SLOTS](_ => 0);
      hasCallback := false;
      needCalculate := true;
      primitiveIndex := -1;
      gradientColors := [];
      percent := 100;
      this.frame := frame;
      measuredWidth := 0;
      measuredHeight := 0;
      new;
      FillPalette(colors, draws);
      FreshDistinct(draws);
    }

    /** The `percent` setter: stores the value clamped into 0..100 and clears
        the selection when the raw value lies outside that range. */
    method SetPercent(value: int)
      requires Valid()
      modifies this`percent, this`primitiveIndex
      ensures Valid()
      ensures percent == Clamp(value)
      ensures primitiveIndex == if value < 0 || value > 100 then -1 else old(primitiveIndex)
    {
      percent := if value < 0 then 0 else if value > 100 then 100 else value;
      if value < 0 || value > 100 {
        primitiveIndex := -1;
      }
    }

    /** The `mode` setter: a new mode needs a new layout. */
    method SetMode(value: Mode)
      requires Valid()
      modifies this`mode, this`needCalculate
      ensures Valid() && mode == value && needCalculate
    {
      mode := value;
      needCalculate := true;
    }

    method SetCallback(installed: bool)
      requires Valid()
      modifies this`hasCallback
      ensures Valid() && hasCallback == installed
    {
      hasCallback := installed;
    }

    /** `onMeasure`: asks for 25 pixels per slot plus the paddings on each
        axis, takes what the framework's `resolveSize` grants, and marks the
        layout stale. */
    method OnMeasure(resolveWidth: int -> int, resolveHeight: int -> int)
      requires Valid()
      modifies this`measuredWidth, this`measuredHeight, this`needCalculate
      ensures Valid() && needCalculate
      ensures measuredWidth == resolveWidth(SLOTS * CELL + frame.paddingLeft + frame.paddingRight)
      ensures measuredHeight == resolveHeight(SLOTS * CELL + frame.paddingTop + frame.paddingBottom)
    {
      var w := SLOTS * CELL + (frame.paddingLeft + frame.paddingRight);
      var h := SLOTS * CELL + (frame.paddingTop + frame.paddingBottom);
      measuredWidth := resolveWidth(w);
      measuredHeight := resolveHeight(h);
      needCalculate := true;
    }

    /** `setCategories`: the groups, ranked, go to `chartCategories` while the
        countdown from nine is positive and to `otherCategories` after; the
        collapsed groups then add one OTHER entry with their sum. */
    method SetCategories(ps: seq<Payment>)
      requires Valid()
      modifies this`chartCategories, this`otherCategories, this`needCalculate
      ensures Valid() && needCalculate
      ensures chartCategories == Aggregate(ps)
      ensures otherCategories == Collapsed(ps)
    {
      chartCategories, otherCategories := Categorize(ps);
      needCalculate := true;
    }

    /** `calculateRectangles`: empties every slot's rectangle, then gives each
        category, at the slot `indexOf` finds for it, its bar or its arc. */
    method CalculateRectangles()
      requires Valid() && LayoutDefined(mode, chartCategories)
      modifies primitives, this`needCalculate
      ensures Valid() && !needCalculate
      ensures primitives[..] == Layout(mode, frame, chartCategories, colors[..], old(primitives[..]))
    {
      ClearRects(primitives);
      var cats := chartCategories;
      if cats != [] {
        if mode == Bar {
          LayBars(primitives, frame, cats, colors[..]);
        } else {
          LayPie(primitives, frame, cats, colors[..]);
        }
      }
      needCalculate := false;
    }

    /** The layout step of `onDraw`: the slots are recomputed only when stale. */
    method Draw()
      requires Valid() && (needCalculate ==> LayoutDefined(mode, chartCategories))
      modifies primitives, this`needCalculate
      ensures Valid() && !needCalculate
      ensures old(needCalculate) ==> primitives[..] == Layout(mode, frame, chartCategories, colors[..], old(primitives[..]))
      ensures !old(needCalculate) ==> primitives[..] == old(primitives[..])
    {
      if needCalculate {
        CalculateRectangles();
      }
    }

    /** `Array.find` over the slots: the first slot the probe hits. */
    method FindSlot(probe: Probe) returns (r: Option<nat>)
      requires Valid()
      ensures r == FirstHit(primitives[..], probe)
    {
      var i := 0;
      while i < primitives.Length
        invariant 0 <= i <= primitives.Length
        invariant forall j :: 0 <= j < i ==> !Hits(primitives[j], probe)
      {
        if Hits(primitives[i], probe) {
          assert Hits(primitives[..][i], probe);
          assert forall j :: 0 <= j < i ==> !Hits(primitives[..][j], probe);
          return Some(i);
        }
        i := i + 1;
      }
      assert forall j :: 0 <= j < |primitives[..]| ==> !Hits(primitives[..][j], probe);
      return None;
    }

    /** `onClick`: only with a callback and nothing selected, selects the slot,
        sets the highlight gradient to its colour around white, and reports
        the category at that index. */
    method OnClick(index: nat) returns (outcome: ClickOutcome)
      requires Valid() && index < SLOTS
      modifies this`primitiveIndex, this`gradientColors
      ensures Valid()
      ensures hasCallback && old(primitiveIndex) == -1 ==>
        && primitiveIndex == index
        && gradientColors == [colors[index], WHITE, colors[index]]
        && outcome == if index < |chartCategories| then Notified(chartCategories[index].name) else IndexOutOfBounds
      ensures !(hasCallback && old(primitiveIndex) == -1) ==>
        primitiveIndex == old(primitiveIndex) && gradientColors == old(gradientColors) && outcome == Ignored
    {
      outcome := Ignored;
      if hasCallback && primitiveIndex == -1 {
        primitiveIndex := index;
        gradientColors := [colors[index], WHITE, colors[index]];
        if index < |chartCategories| {
          outcome := Notified(chartCategories[index].name);
        } else {
          outcome := IndexOutOfBounds;
        }
      }
    }

    /** `onTouchEvent`: with a callback and a press, clicks the first slot
        that answers the touch (the point in bar mode, the angle in pie mode). */
    method OnTouchEvent(down: bool, x: real, y: real, angle: real) returns (outcome: ClickOutcome)
      requires Valid()
      modifies this`primitiveIndex, this`gradientColors
      ensures Valid()
      ensures var hit := FirstHit(primitives[..], ProbeFor(mode, x, y, angle));
        if hasCallback && down && hit.Some? && old(primitiveIndex) == -1 then
          && primitiveIndex == hit.value
          && gradientColors == [colors[hit.value], WHITE, colors[hit.value]]
          && outcome == if hit.value < |chartCategories| then Notified(chartCategories[hit.value].name) else IndexOutOfBounds
        else
          primitiveIndex == old(primitiveIndex) && gradientColors == old(gradientColors) && outcome == Ignored
    {
      outcome := Ignored;
      if hasCallback && down {
        var hit := FindSlot(ProbeFor(mode, x, y, angle));
        if hit.Some? {
          outcome := OnClick(hit.value);
        }
      }
    }
  }

  /** The loop of `setCategories`: the first `KEPT` tallies of the ranking
      become shown categories, the rest collapsed ones, each with its key
      capitalised. */
  method Distribute(ranked: seq<Tally>) returns (kept: seq<Category>, rest: seq<Category>)
    ensures kept == Displayed(ranked[..Min(KEPT, |ranked|)])
    ensures rest == Displayed(ranked[Min(KEPT, |ranked|)..])
  {
    kept := [];
    rest := [];
    var count: int := KEPT;
    for i := 0 to |ranked|
      invariant count == KEPT - i
      invariant i <= KEPT ==> kept == Displayed(ranked[..i]) && rest == []
      invariant i > KEPT ==> kept == Displayed(ranked[..KEPT])
      invariant i > KEPT ==> rest == Displayed(ranked[KEPT..i])
    {
      var c := ToCategory(ranked[i]);
      if count > 0 {
        DisplayedExtend(ranked, 0, i);
        assert ranked[0..i] == ranked[..i] && ranked[0..i + 1] == ranked[..i + 1];
        kept := kept + [c];
      } else {
        if i == KEPT {
          assert ranked[KEPT..i] == [];
        }
        DisplayedExtend(ranked, KEPT, i);
        rest := rest + [c];
      }
      count := count - 1;
    }
    assert ranked[Min(KEPT, |ranked|)..] == ranked[Min(KEPT, |ranked|)..|ranked|];
  }

  /** The body of `setCategories` on values: the ranked groups split by the
      countdown from nine, then one OTHER entry with the sum of the
      collapsed groups when there are any. */
  method Categorize(ps: seq<Payment>) returns (chart: seq<Category>, other: seq<Category>)
    ensures chart == Aggregate(ps) && other == Collapsed(ps)
    ensures |chart| <= SLOTS
  {
    var ranked := Ranked(ps);
    var kept, rest := Distribute(ranked);
    chart := kept;
    other := rest;
    if |other| > 0 {
      chart := chart + [Category(OTHER, SumBy(other, CategoryAmount))];
    }
    AggregateSize(ps);
  }

  /** The palette loop: slot `i` takes the first draw whose colour is not
      yet in the array (whose other slots still hold 0, which no opaque
      colour equals). */
  method FillPalette(colors: array<int>, draws: seq<Rgb>)
    requires colors.Length == SLOTS && forall j :: 0 <= j < SLOTS ==> colors[j] == 0
    requires AllValid(draws) && |Fresh(draws)| >= SLOTS
    modifies colors
    ensures colors[..] == Fresh(draws)[..SLOTS]
  {
    var k := 0;
    assert Filled(colors[..], 0, Fresh(draws[..k]));
    for i := 0 to SLOTS
      invariant k <= |draws|
      invariant Filled(colors[..], i, Fresh(draws[..k]))
    {
      k := TakeFresh(colors, i, draws, k);
    }
    assert colors[..] == colors[..SLOTS];
    FreshPrefix(draws, k);
  }

  /** One round of the palette loop: draws until a colour not yet in the
      array turns up, and stores it in slot `i`. */
  method TakeFresh(colors: array<int>, i: nat, draws: seq<Rgb>, k0: nat) returns (k: nat)
    requires colors.Length == SLOTS && i < SLOTS
    requires AllValid(draws) && |Fresh(draws)| >= SLOTS && k0 <= |draws|
    requires Filled(colors[..], i, Fresh(draws[..k0]))
    modifies colors
    ensures k0 < k <= |draws|
    ensures Filled(colors[..], i + 1, Fresh(draws[..k]))
  {
    k := k0;
    MoreToDraw(draws, k);
    while true
      invariant k0 <= k < |draws|
      invariant Filled(colors[..], i, Fresh(draws[..k]))
      decreases |draws| - k
    {
      ghost var accepted := Fresh(draws[..k]);
      var color := Opaque(draws[k]);
      DrawStep(colors[..], i, draws, k);
      var taken := color in colors[..];
      k := k + 1;
      if !taken {
        Accept(colors, i, accepted, color);
        return;
      }
      assert Fresh(draws[..k]) == accepted && |accepted| == i;
      MoreToDraw(draws, k);
    }
  }

  /** Stores an accepted colour in slot `i`. */
  method Accept(colors: array<int>, i: nat, ghost accepted: seq<int>, color: int)
    requires i < colors.Length && Filled(colors[..], i, accepted)
    modifies colors
    ensures Filled(colors[..], i + 1, accepted + [color])
  {
    ghost var before := colors[..];
    colors[i] := color;
    assert colors[..] == before[i := color];
    FilledStep(before, i, accepted, color);
  }

  /** One draw against the palette array: its colour is in the array
      exactly when it was accepted before, and the accepted colours grow by
      it exactly when it is not. */
  lemma {:induction false} DrawStep(s: seq<int>, i: nat, draws: seq<Rgb>, k: nat)
    requires AllValid(draws) && k < |draws| && Filled(s, i, Fresh(draws[..k]))
    ensures var c, prev := Opaque(draws[k]), Fresh(draws[..k]);
      && (c in s <==> c in prev)
      && Fresh(draws[..k + 1]) == if c in s then prev else prev + [c]
  {
    var c := Opaque(draws[k]);
    FreshStep(draws, k);
    OpaqueInjective(draws[k], draws[k]);
    FilledMember(s, i, Fresh(draws[..k]), c);
  }

  /** The palette array while slot `i` is being filled: the colours accepted
      so far, then zeros. */
  ghost predicate Filled(s: seq<int>, i: nat, accepted: seq<int>)
  {
    i <= |s| && s[..i] == accepted && forall j :: i <= j < |s| ==> s[j] == 0
  }

  /** A non-zero colour is in the array exactly when it has been accepted. */
  lemma {:induction false} FilledMember(s: seq<int>, i: nat, accepted: seq<int>, color: int)
    requires Filled(s, i, accepted) && color != 0
    ensures color in s <==> color in accepted
  {
    assert s == s[..i] + s[i..];
    assert color !in s[i..];
  }

  /** Storing a colour in slot `i` accepts it. */
  lemma {:induction false} FilledStep(s: seq<int>, i: nat, accepted: seq<int>, color: int)
    requires Filled(s, i, accepted) && i < |s|
    ensures Filled(s[i := color], i + 1, accepted + [color])
  {
    assert s[i := color][..i + 1] == accepted + [color];
  }

  /** While fewer colours have been accepted than the stream holds, draws
      remain. */
  lemma {:induction false} MoreToDraw(draws: seq<Rgb>, k: nat)
    requires AllValid(draws) && k <= |draws|
    requires |Fresh(draws[..k])| < |Fresh(draws)|
    ensures k < |draws|
  {
    assert draws[..|draws|] == draws;
  }

  /** `primitives.forEach { it.rectF.setEmpty() }`. */
  method ClearRects(slots: array<Primitive>)
    modifies slots
    ensures slots[..] == Cleared(old(slots[..]))
  {
    for i := 0 to slots.Length
      invariant slots[..i] == Cleared(old(slots[..]))[..i]
      invariant slots[i..] == old(slots[i..])
    {
      slots[i] := slots[i].(rect := EMPTY);
      assert slots[i + 1..] == old(slots[i + 1..]);
    }
    assert slots[..] == slots[..slots.Length];
  }

  /** The bar branch of `calculateRectangles`, with `cx` stepping one column
      of `width / n` per category. */
  method LayBars(slots: array<Primitive>, f: Frame, cats: seq<Category>, colors: seq<int>)
    requires slots.Length == SLOTS && |colors| == SLOTS && 0 < |cats| <= SLOTS && cats[0].amount != 0
    modifies slots
    ensures slots[..] == BarFold(f, cats, colors, old(slots[..]), |cats|)
  {
    ghost var base := slots[..];
    var n := |cats|;
    var cx := f.paddingLeft;
    var maxAmount := cats[0].amount;
    var delta := f.width / n;
    for k := 0 to n
      invariant cx == f.paddingLeft + k * delta
      invariant slots[..] == BarFold(f, cats, colors, base, k)
    {
      var cy := BarTop(f, cats[k].amount, maxAmount);
      var index := IndexOf(cats, cats[k]);
      var rect := Rect(cx as real, cy, (cx + delta - 2 * STROKE_WIDTH) as real,
                       (f.height - f.paddingBottom) as real);
      assert rect == BarRect(f, cats, k);
      ghost var prev := slots[..];
      assert BarFold(f, cats, colors, base, k + 1) == prev[index := BarSlot(prev[index], rect, colors[index])];
      slots[index] := BarSlot(slots[index], rect, colors[index]);
      assert slots[..] == prev[index := BarSlot(prev[index], rect, colors[index])];
      cx := cx + delta;
      assert (k + 1) * delta == k * delta + delta;
    }
  }

  /** The pie branch of `calculateRectangles`, with `start` accumulating each
      arc and its 1 degree gap. */
  method LayPie(slots: array<Primitive>, f: Frame, cats: seq<Category>, colors: seq<int>)
    requires slots.Length == SLOTS && |colors| == SLOTS && 0 < |cats| <= SLOTS && Total(cats) != 0
    modifies slots
    ensures slots[..] == PieFold(f, cats, colors, old(slots[..]), Total(cats), |cats|)
  {
    ghost var base := slots[..];
    var cx := f.paddingLeft;
    var start := 0.0;
    var totalAmount := SumBy(cats, CategoryAmount);
    var r := Min(f.width, f.height) / 2;
    var w := r / 4;
    var rect := Rect((cx + f.width / 2 - r + w) as real, (f.paddingTop + f.height / 2 - r + w) as real,
                     (cx + f.width / 2 + r - w) as real, (f.paddingTop + f.height / 2 + r - w) as real);
    assert rect == PieRect(f);
    for k := 0 to |cats|
      invariant start == StartAt(cats, totalAmount, k)
      invariant slots[..] == PieFold(f, cats, colors, base, totalAmount, k)
    {
      var index := IndexOf(cats, cats[k]);
      var end := cats[k].amount as real / totalAmount as real * 360.0 - 1.0;
      slots[index] := Primitive(rect, Paint(w as real, Stroke, colors[index]), start, end);
      start := start + end + 1.0;
    }
  }

  lemma {:induction false} DisplayedExtend(ts: seq<Tally>, lo: nat, i: nat)
    requires lo <= i < |ts|
    ensures Displayed(ts[lo..i + 1]) == Displayed(ts[lo..i]) + [ToCategory(ts[i])]
  {
  }

  /** When no category's lower-cased name is the lower-cased OTHER name, the
      entries `setCategories` produces are pairwise different, so each gets
      its own slot. */
  lemma {:induction false} AggregateDistinct(ps: seq<Payment>)
    requires forall p :: p in ps ==> GroupKey(p) != Lower(OTHER)
    ensures Distinct(Aggregate(ps))
  {
    var a, r, n := Aggregate(ps), Ranked(ps), KeptCount(ps);
    AggregateLayout(ps);
    AggregateNamesDistinct(ps);
    RankedAreGroups(ps);
    forall i, j | 0 <= i < j < |a| ensures a[i] != a[j] {
      if j == n {
        assert HasPayment(ps, r[i].key);
        var k :| 0 <= k < |ps| && GroupKey(ps[k]) == r[i].key;
        assert ps[k] in ps;
        assert Lower(a[i].name) == r[i].key;
      }
    }
  }

  /** In bar mode a touch can only land on a slot of a shown category: every
      other slot has an empty rectangle. */
  lemma {:induction false} BarTouchInRange(f: Frame, cats: seq<Category>, colors: seq<int>, slots: seq<Primitive>, x: real, y: real)
    requires |colors| == SLOTS && |slots| == SLOTS && |cats| <= SLOTS && LayoutDefined(Bar, cats)
    ensures var hit := FirstHit(Layout(Bar, f, cats, colors, slots), Point(x, y));
      hit.Some? ==> hit.value < |cats|
  {
    LayoutTail(Bar, f, cats, colors, slots);
  }

  /** The frame, palette and two category lists of `StalePieSlot`. */
  const EXAMPLE_FRAME: Frame := Frame(400, 400, 0, 0, 0, 0)
  const EXAMPLE_COLORS: seq<int> := seq(SLOTS, i => i + 1)
  const FIVE_CATEGORIES: seq<Category> := [Category("A", 2), Category("B", 1), Category("C", 1), Category("D", 1), Category("E", 1)]
  const TWO_CATEGORIES: seq<Category> := [Category("A", 3), Category("B", 1)]

  /** The five arcs from a fresh set of slots: slot 2 spans 180..239
      degrees and slot 3 spans 240..299. */
  lemma {:induction false} FiveArcs()
    ensures var before := Layout(Pie, EXAMPLE_FRAME, FIVE_CATEGORIES, EXAMPLE_COLORS, seq(SLOTS, _ => DEFAULT_PRIMITIVE));
      && before[2].start == 180.0 && before[2].end == 59.0
      && before[3].start == 240.0 && before[3].end == 59.0
  {
    var slots := seq(SLOTS, _ => DEFAULT_PRIMITIVE);
    assert Total(FIVE_CATEGORIES) == 6;
    PieLayoutSlots(EXAMPLE_FRAME, FIVE_CATEGORIES, EXAMPLE_COLORS, slots);
    assert StartAt(FIVE_CATEGORIES, 6, 2) == 180.0;
    assert StartAt(FIVE_CATEGORIES, 6, 3) == 240.0;
  }

  /** The two arcs laid over earlier slots: slot 0 spans 0..269 degrees,
      slot 1 starts at 270, and slots 2 and 3 keep their arcs. */
  lemma {:induction false} TwoArcs(before: seq<Primitive>)
    requires |before| == SLOTS
    ensures var after := Layout(Pie, EXAMPLE_FRAME, TWO_CATEGORIES, EXAMPLE_COLORS, before);
      && after[0].start == 0.0 && after[0].end == 269.0
      && after[1].start == 270.0
      && after[2] == before[2].(rect := EMPTY)
      && after[3] == before[3].(rect := EMPTY)
  {
    assert Total(TWO_CATEGORIES) == 4;
    PieLayoutSlots(EXAMPLE_FRAME, TWO_CATEGORIES, EXAMPLE_COLORS, before);
    LayoutTail(Pie, EXAMPLE_FRAME, TWO_CATEGORIES, EXAMPLE_COLORS, before);
  }

  /** In pie mode a touch can land on a slot past the shown categories: after
      five categories [2, 1, 1, 1, 1] are replaced by two, [3, 1], the angle
      269.5 misses both new arcs but lies on the stale arc of slot 3. */
  lemma {:induction false} StalePieSlot()
    ensures var before := Layout(Pie, EXAMPLE_FRAME, FIVE_CATEGORIES, EXAMPLE_COLORS, seq(SLOTS, _ => DEFAULT_PRIMITIVE));
      FirstHit(Layout(Pie, EXAMPLE_FRAME, TWO_CATEGORIES, EXAMPLE_COLORS, before), Angle(269.5)) == Some(3)
  {
    var before := Layout(Pie, EXAMPLE_FRAME, FIVE_CATEGORIES, EXAMPLE_COLORS, seq(SLOTS, _ => DEFAULT_PRIMITIVE));
    FiveArcs();
    TwoArcs(before);
    var after := Layout(Pie, EXAMPLE_FRAME, TWO_CATEGORIES, EXAMPLE_COLORS, before);
    assert Hits(after[3], Angle(269.5));
    assert !Hits(after[0], Angle(269.5)) && !Hits(after[1], Angle(269.5)) && !Hits(after[2], Angle(269.5));
    assert forall j :: 0 <= j < 3 ==> !Hits(after[j], Angle(269.5));
  }
}
