# Custom views of the expenses app, modelled in Dafny

The app shows a month of payments in two custom Android views.

- **`ChartView`** groups the payments by category, ignoring case. It ranks the groups by total, keeps the nine largest and folds the rest into one trailing `"Другое"` ("Other") entry. It lays the entries out in ten drawing slots, as bars or as pie arcs, and recomputes them lazily behind a `needCalculate` flag. A touch selects the first slot it hits. The view keeps a palette of ten different random colours and an animation percentage clamped to 0..100.
- **`GraphView`** sums the payments of one category into 24 hourly buckets and takes the earliest payment's category as its title. It sizes a 23-by-6 grid in `onMeasure`. In `onDraw` it labels five grid lines, places 24 hour columns, and draws the polyline through the hourly sums only up to a reveal line driven by the percentage.

The model keeps each view as a Dafny `class` with the fields its methods update:

- `ChartView`'s `primitives` and `colors` arrays, and `GraphView`'s hourly array, are Dafny arrays rewritten in place.
- The category lists are sequence fields.
- Every loop of the modelled code is a method with a loop, proved against a specification function whose properties are proved as lemmas. Four loops of the source have no such method, and "## Left out" covers each: the label-measuring `repeat(HORIZONTAL_LINES - 2)` in `GraphView.onDraw`, whose result is an input; the `primitives.forEach` drawing loop of `ChartView.onDraw` (ChartView.kt:141-177); and the `forEach` loops of `onRestoreInstanceState` (ChartView.kt:125, GraphView.kt:200).
- Kotlin `Float` is `real`. Kotlin `Int` is `int`, with its truncating division (`Common.Quot`) and `Float.toInt()` (`Common.TruncReal`) written out.
- `shr k` on an `Int` is division by 2^k rounded down.

Files:

- `Common.dfy`: the option type, the percent clamp and the integer helpers.
- `Text.dfy`: lower-casing and capitalising.
- `Payments.dfy`: the records.
- `Sorting.dfy`: stable sort by key, and sums.
- `Aggregation.dfy`: the grouping pipeline of `setCategories`.
- `Palette.dfy`: colour packing and the fresh-colour stream.
- `Geometry.dfy`: `RectF`, `Paint` and `Primitive`.
- `ChartLayout.dfy`: the slot layout and the hit test.
- `Chart.dfy`: the `ChartView` class.
- `GraphMath.dfy`: the graph arithmetic.
- `Graph.dfy`: the `GraphView` class.

Behaviour of the source that the model keeps as written:

- **A stale pie slot can be selected.** `calculateRectangles` empties only the rectangles. The start and sweep of slots past the current categories stay, and the pie hit test does not look at rectangles. So a touch can select a slot with no category behind it, and `onClick` then reads past the end of `chartCategories`. `Chart.StalePieSlot` exhibits such a touch. The outcome is `ClickOutcome.IndexOutOfBounds`.
- **A stale bar can be selected.** `setCategories` marks the layout stale but leaves the slots alone until the next draw. After `setCategories` to a shorter list and before that draw, the bar rectangles of the old list remain, and a touch on one past the new list makes `onClick` read past the end of `chartCategories`. `Chart.BarTouchInRange` holds only for the slots right after a bar layout.
- **The Other entry can outrank slot 0.** `"Другое"` is appended after the ranked nine and can be larger than the first of them. The bar layout still scales every bar by slot 0, so that bar then rises above the top edge (`ChartLayout.BarHeights`).
- **The reveal line ignores the left padding.** It is measured from x = 0, while the hour columns start at `paddingLeft`. `GraphMath.FullRevealMissesTail` shows that at 100% the last segment is not drawn. `GraphMath.FullRevealWithoutLeftPadding` shows that every segment is drawn when there is no left padding, unless the column step is zero, in which case the segment is not-a-number.
- **Bar tops subtract `paddingTop`.** A full bar's top is at `-paddingTop`.
- **Bars ignore `paddingRight`.** Columns start at `paddingLeft` and split the whole `width`, so the last bar ends at `paddingLeft + width - 8` at most and can overflow the right edge by up to `paddingLeft - 8` (`ChartLayout.BarsTile`).

## Model

| member | source | states |
|---|---|---|
| Common.Clamp | app/src/main/java/otus/homework/customview/GraphView.kt:29-33 | the stored percentage lies in 0..100, equals an in-range input, and is the point of 0..100 nearest to the input |
| Common.Quot | app/src/main/java/otus/homework/customview/GraphView.kt:97 | Kotlin `Int / Int` for a positive divisor: the magnitude is the magnitude's quotient, with the dividend's sign (rounded toward zero) |
| Common.TruncReal | app/src/main/java/otus/homework/customview/GraphView.kt:134 | `Float.toInt()`: the whole number next to the value toward zero, within one of it |
| Text.LowerIsLowered | app/src/main/java/otus/homework/customview/ChartView.kt:312 | a lower-cased grouping key has no upper-case letter, and lower-casing it again changes nothing |
| Text.CapitalizeInjective | app/src/main/java/otus/homework/customview/ChartView.kt:312-319 | on lower-cased keys, `replaceFirstChar { it.uppercase() }` maps different keys to different names, and lower-casing the name gives the key back |
| Sorting.SortBy | app/src/main/java/otus/homework/customview/ChartView.kt:317 | the sort yields a permutation of its input (same multiset) whose keys never decrease |
| Sorting.SortByFirstIsLeast | app/src/main/java/otus/homework/customview/GraphView.kt:213-216 | the first element after `sortedBy { it.time }` is an input element with the least time |
| Sorting.SumBySort | app/src/main/java/otus/homework/customview/GraphView.kt:213 | sorting leaves every sum over the sequence unchanged |
| Aggregation.FindKey | app/src/main/java/otus/homework/customview/ChartView.kt:312-315 | finds the group with the given key, and answers -1 exactly when there is none |
| Aggregation.TalliesAreGroups | app/src/main/java/otus/homework/customview/ChartView.kt:311-316 | `groupingBy { it.category.lowercase() }.aggregate` yields each key of a payment exactly once and nothing else; each total is the sum of that key's payments; the totals add up to all amounts |
| Aggregation.RankedAreGroups | app/src/main/java/otus/homework/customview/ChartView.kt:316-317 | ranking by total keeps the same groups, totals and overall sum |
| Aggregation.RankedOrder | app/src/main/java/otus/homework/customview/ChartView.kt:317 | the ranked groups are in non-increasing order of total |
| Aggregation.AggregateSize | app/src/main/java/otus/homework/customview/ChartView.kt:309-324 | at most ten entries; none exactly when there are no payments; the Other entry is present exactly when there are more than nine groups |
| Aggregation.AggregateKept | app/src/main/java/otus/homework/customview/ChartView.kt:317-321 | each kept entry is a group's capitalised key with that group's total; kept entries are in non-increasing order; no collapsed group exceeds a kept one |
| Aggregation.AggregateConserves | app/src/main/java/otus/homework/customview/ChartView.kt:323-324 | the Other entry's amount is the sum of the collapsed groups, and all entries together add up to the total of all payment amounts |
| Aggregation.AggregateNamesDistinct | app/src/main/java/otus/homework/customview/ChartView.kt:312-319 | no two groups share a lower-cased key, so the kept entries have pairwise different names, each lower-casing back to its key |
| Palette.Argb | app/src/main/java/otus/homework/customview/ChartView.kt:82 | `Color.argb` is the signed 32-bit `Int` whose unsigned reading is the four channels packed a byte each |
| Palette.OpaqueInjective | app/src/main/java/otus/homework/customview/ChartView.kt:82-83 | an opaque colour is never 0 (an unfilled palette slot), and two draws give the same colour exactly when they are the same draw |
| Palette.FreshDistinct | app/src/main/java/otus/homework/customview/ChartView.kt:80-88 | the colours the retry loop accepts from a draw stream are pairwise different |
| Palette.FreshMembers | app/src/main/java/otus/homework/customview/ChartView.kt:80-88 | the accepted colours are exactly the colours drawn |
| Palette.FreshPrefix | app/src/main/java/otus/homework/customview/ChartView.kt:80-88 | the colours accepted from the first k draws lead those accepted from all draws |
| ChartLayout.IndexOf | app/src/main/java/otus/homework/customview/ChartView.kt:193 | `indexOf` is the first position holding an equal category |
| ChartLayout.IndexOfDistinct | app/src/main/java/otus/homework/customview/ChartView.kt:217 | among pairwise different categories, `indexOf` of the k-th is k |
| ChartLayout.LayoutTail | app/src/main/java/otus/homework/customview/ChartView.kt:183-185 | slots past the categories, or all slots for no categories, keep paint and arc and have an empty rectangle |
| ChartLayout.BarLayoutSlots | app/src/main/java/otus/homework/customview/ChartView.kt:186-208 | for distinct categories, slot i is the i-th bar, filled, stroke width 4, in `colors[i]`, with its arc untouched |
| ChartLayout.BarsTile | app/src/main/java/otus/homework/customview/ChartView.kt:190-207 | bar i starts at paddingLeft + i*(width / n); it is a column less 8 wide; the next bar starts 8 after it; the last ends at most at paddingLeft + width - 8, which can pass the right edge when paddingLeft > 8 |
| ChartLayout.BarHeights | app/src/main/java/otus/homework/customview/ChartView.kt:189-192 | a bar is height*amount/amount_0 tall above the line height - paddingTop; one top is at or above another exactly when its amount is at least as large; the first bar's top is -paddingTop |
| ChartLayout.PieLayoutSlots | app/src/main/java/otus/homework/customview/ChartView.kt:209-235 | for distinct categories, slot i is stroked in `colors[i]` on the shared square with ring width r/4, from the i-th start with sweep amount/total*360 - 1 |
| ChartLayout.StartAtShare | app/src/main/java/otus/homework/customview/ChartView.kt:230-233 | the k-th start angle is the first k amounts' share of 360 degrees |
| ChartLayout.PieCoversCircle | app/src/main/java/otus/homework/customview/ChartView.kt:210-233 | the sweeps plus their one-degree gaps add up to exactly 360 degrees |
| ChartLayout.ArcsDisjoint | app/src/main/java/otus/homework/customview/ChartView.kt:230-233 | with no negative amounts, every arc ends before any later arc starts |
| ChartLayout.FirstHit | app/src/main/java/otus/homework/customview/ChartView.kt:262 | `Array.find`: the slot found answers the touch and none before it does; nothing is found exactly when no slot answers |
| ChartLayout.BarTouchSelects | app/src/main/java/otus/homework/customview/ChartView.kt:261-263 | a point inside the i-th bar selects slot i |
| ChartLayout.BarTouchLeftOfPadding | app/src/main/java/otus/homework/customview/ChartView.kt:261-262 | a point left of the left padding selects nothing |
| ChartLayout.PieTouchSelects | app/src/main/java/otus/homework/customview/ChartView.kt:295-296 | with no negative amounts, an angle on the i-th arc selects slot i |
| Chart.ChartView.constructor | app/src/main/java/otus/homework/customview/ChartView.kt:46-89 | ten default slots; the palette is the first ten different colours of the draw stream, so pairwise different; bar mode, no selection, percent 100, layout stale |
| Chart.ChartView.SetPercent | app/src/main/java/otus/homework/customview/ChartView.kt:71-76 | stores the clamped value; clears the selection exactly when the raw value is outside 0..100, else keeps it; changes nothing else |
| Chart.ChartView.SetMode | app/src/main/java/otus/homework/customview/ChartView.kt:46-51 | stores the mode and marks the layout stale |
| Chart.ChartView.SetCallback | app/src/main/java/otus/homework/customview/ChartView.kt:331-333 | installs or removes the callback |
| Chart.ChartView.OnMeasure | app/src/main/java/otus/homework/customview/ChartView.kt:91-103 | the measured size is what `resolveSize` grants for 25 per slot plus paddings, and the layout is marked stale |
| Chart.ChartView.SetCategories | app/src/main/java/otus/homework/customview/ChartView.kt:304-329 | `chartCategories` becomes the aggregate and `otherCategories` the collapsed groups; the layout is marked stale |
| Chart.ChartView.CalculateRectangles | app/src/main/java/otus/homework/customview/ChartView.kt:181-240 | the slots become the layout of the current categories over the old slots, and `needCalculate` is false |
| Chart.ChartView.Draw | app/src/main/java/otus/homework/customview/ChartView.kt:138-139 | the slots are recomputed exactly when the layout is stale, and are unchanged otherwise |
| Chart.ChartView.FindSlot | app/src/main/java/otus/homework/customview/ChartView.kt:262 | the loop returns the first slot the probe hits |
| Chart.ChartView.OnClick | app/src/main/java/otus/homework/customview/ChartView.kt:242-255 | with a callback and no selection, selects the slot, sets the gradient to its colour around white and notifies that category's name (or fails past the list's end); otherwise changes nothing |
| Chart.ChartView.OnTouchEvent | app/src/main/java/otus/homework/customview/ChartView.kt:257-302 | a press with a callback clicks the first slot hit by the point (bar mode) or the angle (pie mode); a second hit while selected changes nothing |
| Chart.Categorize | app/src/main/java/otus/homework/customview/ChartView.kt:309-324 | the body of `setCategories` yields exactly the aggregate and the collapsed groups, at most ten entries |
| Chart.Distribute | app/src/main/java/otus/homework/customview/ChartView.kt:309-321 | the countdown loop sends the first nine ranked groups to the shown list and the rest to the collapsed list, as display categories |
| Chart.FillPalette | app/src/main/java/otus/homework/customview/ChartView.kt:80-88 | the palette array ends up as the first ten different colours of the stream |
| Chart.TakeFresh | app/src/main/java/otus/homework/customview/ChartView.kt:81-87 | one retry loop consumes draws until a colour not yet in the array appears, and stores it in slot i |
| Chart.ClearRects | app/src/main/java/otus/homework/customview/ChartView.kt:183 | every slot's rectangle is emptied; nothing else changes |
| Chart.LayBars | app/src/main/java/otus/homework/customview/ChartView.kt:186-208 | the bar loop, with `cx` stepping a column per category, writes exactly the bar fold |
| Chart.LayPie | app/src/main/java/otus/homework/customview/ChartView.kt:209-235 | the pie loop, with `start` accumulating sweep plus one, writes exactly the pie fold |
| Chart.AggregateDistinct | app/src/main/java/otus/homework/customview/ChartView.kt:311-324 | when no category lower-cases to the Other name, the entries are pairwise different, so `indexOf` gives each its own slot |
| Chart.BarTouchInRange | app/src/main/java/otus/homework/customview/ChartView.kt:253-263 | right after a bar layout, a touch only selects slots of the categories just laid out |
| Chart.StalePieSlot | app/src/main/java/otus/homework/customview/ChartView.kt:183-296 | in pie mode a touch can select a stale slot past the shown categories |
| GraphMath.HourlySnoc | app/src/main/java/otus/homework/customview/GraphView.kt:223-225 | one more payment adds its amount to its own hour's sum and to no other |
| GraphMath.HourlyConserves | app/src/main/java/otus/homework/customview/GraphView.kt:218-225 | the 24 hourly sums add up to the total of all amounts |
| GraphMath.HourlyOrderFree | app/src/main/java/otus/homework/customview/GraphView.kt:213-225 | sorting by time does not change the hourly sums |
| GraphMath.MaxOf | app/src/main/java/otus/homework/customview/GraphView.kt:88 | `IntArray.max()` is an element of the array and at least every element |
| GraphMath.Cell | app/src/main/java/otus/homework/customview/GraphView.kt:68-71 | g is the largest cell with which 23 columns and 6 rows both fit inside the resolved size less the paddings |
| GraphMath.Measure | app/src/main/java/otus/homework/customview/GraphView.kt:60-80 | the text size lies in 0..20 and is min(g/2, 20); the size never exceeds the resolved one and is exactly the grid plus paddings when that fits; visible exactly when both sides are positive |
| GraphMath.MeasureUnconstrained | app/src/main/java/otus/homework/customview/GraphView.kt:60-80 | granted its desired size with non-negative paddings, the view gets cell 83, text size 20 and is visible |
| GraphMath.GridLabelsApproximate | app/src/main/java/otus/homework/customview/GraphView.kt:116-123 | the labels are five, from the maximum down to 0; each is within three quarters of a unit of the value its line plots; they never increase for a non-negative maximum |
| GraphMath.ColumnsFit | app/src/main/java/otus/homework/customview/GraphView.kt:98-135 | hour columns are one column step apart; when the labels leave room, every column lies between the left padding and the value labels |
| GraphMath.PlotSpansGrid | app/src/main/java/otus/homework/customview/GraphView.kt:131-155 | the maximum is plotted on the top grid line and 0 on the bottom one; a larger value is plotted higher |
| GraphMath.Clip | app/src/main/java/otus/homework/customview/GraphView.kt:157-171 | a segment is whole exactly when the reveal line is past its column; cut exactly when the line lies within its span (a zero step then gives not-a-number); otherwise not drawn |
| GraphMath.ClipInterpolates | app/src/main/java/otus/homework/customview/GraphView.kt:164 | both interpolation forms give the point of the segment's line at the reveal line; it lies between the two heights and meets them at the span's ends |
| GraphMath.RevealMonotone | app/src/main/java/otus/homework/customview/GraphView.kt:139-162 | raising the percentage never turns a whole segment into a cut one, or a drawn segment into a hidden one |
| GraphMath.FullRevealWithoutLeftPadding | app/src/main/java/otus/homework/customview/GraphView.kt:134-164 | without a left padding, 100% draws every segment to its column at its hour's height, except that a zero column step (no room for the columns) makes the segment not-a-number |
| GraphMath.FullRevealMissesTail | app/src/main/java/otus/homework/customview/GraphView.kt:134-171 | with a left padding of 100 on a 1000-wide view, 100% leaves the last segment undrawn |
| Graph.GraphView.constructor | app/src/main/java/otus/homework/customview/GraphView.kt:29-37 | 24 zero sums, percent 100, nothing to draw, empty title |
| Graph.GraphView.SetPercent | app/src/main/java/otus/homework/customview/GraphView.kt:29-33 | stores the clamped value and changes no other field |
| Graph.GraphView.SetPayments | app/src/main/java/otus/homework/customview/GraphView.kt:211-226 | draws exactly when there are payments; the title is the earliest payment's category, or empty; every hour holds the sum of its payments |
| Graph.GraphView.OnMeasure | app/src/main/java/otus/homework/customview/GraphView.kt:57-81 | measured size, text size and visibility are those of the measurement of the resolved desired size |
| Graph.GraphView.OnDraw | app/src/main/java/otus/homework/customview/GraphView.kt:83-180 | nothing without payments; otherwise the grid lines, the labels (only with a positive text size), the 24 columns and the 23 clipped segments of the hourly sums |
| Graph.ZeroBuckets | app/src/main/java/otus/homework/customview/GraphView.kt:218-220 | every hourly sum becomes 0 |
| Graph.AddPayments | app/src/main/java/otus/homework/customview/GraphView.kt:222-225 | after the loop every hour holds the sum of the amounts paid in it |
| Graph.GridLines | app/src/main/java/otus/homework/customview/GraphView.kt:97-131 | the five grid lines step one row down from the top line, and `toY` is the last one |
| Graph.WalkHours | app/src/main/java/otus/homework/customview/GraphView.kt:133-178 | the hour loop, with `fromX` stepping one column, yields the 24 columns and the clipped segment into every hour after the first |

## Left out

- Drawing is not modelled: canvas calls, the bar gradient bitmap, the pie alpha fade, the selected arc's thicker stroke, the dashed grid paint, and the text of titles and hour labels. `GraphView.onDraw` is modelled as the plan it draws, not as pixels.
- `onSaveInstanceState` and `onRestoreInstanceState` of both views are not modelled. They are Bundle and JSON serialisation through platform libraries.
- `MainActivity.kt` is not part of this model. It is activity wiring: resource loading, the animators, the toast. The percentage driver appears only as calls to the setters. The JSON serializer in `Payment.kt` is not modelled either; a payment's time is its epoch milliseconds.
- `resolveSize`, `MotionEvent`, `measureText` and the random generator are inputs. `resolveSize` is a given function of the desired size. The touch is its action, point and angle. `measureText` is not modelled: the largest width it gives for the values `amount - k * (amount / 4)`, k = 0..3 (which are not the drawn labels), is a given non-negative `labelWidth`. The random generator is a finite stream of channel triples.
- The conversion of a touch point to an angle (`asin`, `sqrt`, quadrants) is not modelled. It is floating-point trigonometry; the angle is an input to the hit test.
- `SimpleDateFormat("HH")` is a given function from instants to hours 0..23. Locale and time zone are left out.
- `String.lowercase()` and `uppercase()` are modelled for the letters A-Z and the basic Cyrillic letters only; every other character maps to itself.
- `Float` is modelled as exact `real` and `Int` as unbounded `int`. Rounding, overflow of large sums, infinities and NaN are not modelled, except for the one not-a-number case of the clip.
- Chart.ChartView.constructor: requires the draw stream to yield at least ten different colours. With fewer, the source's retry loop never ends.
- Chart.ChartView.CalculateRectangles: requires a non-zero first amount in bar mode and a non-zero total in pie mode. With zero, the source divides by zero in floating point, and the model does not represent the infinite or NaN results.
- Chart.ChartView.Draw: same requirement as `CalculateRectangles`, when the layout is stale. In pie mode with a selection, the source's `onDraw` also writes the fade alpha into the paint colour of every other slot and the thicker stroke width into the selected slot (ChartView.kt:166-172). These writes persist in the slots until the next layout. The model drops them, so its "unchanged otherwise" covers the slots as laid out, not these paint writes.
- Text.CapitalizeInjective: injectivity holds only for the modelled case mapping. Kotlin's `uppercase()` maps both 'ſ' (U+017F) and 's' to "S" (likewise 'ı' and 'i' to "I", 'ς' and 'σ' to "Σ"), so the different keys "ſport" and "sport" both display as "Sport".
- Aggregation.AggregateNamesDistinct: distinct display names hold only for the modelled case mapping. With the keys "ſport" and "sport" the source yields two entries named "Sport".
- Chart.AggregateDistinct: distinct entries hold only for the modelled case mapping. With the keys "ſport" and "sport" and equal totals, the source yields two equal entries, and `indexOf` sends both to the first one's slot.
- The frame (size and paddings) of both views is fixed when the model object is made. In the source, layout can call `onMeasure` again and reassign `width` and `height`, which is why `ChartView.onMeasure` marks the layout stale (ChartView.kt:102); relayout is not modelled.
- Graph.GraphView.OnDraw: requires the largest hourly sum to be non-zero when there is something to draw. With zero, the source divides by zero in floating point and plots infinities or NaN.
- Sorting.SortBy: the stability of the sort (equal totals keep first-appearance order) follows from its definition but is not stated as a lemma.

