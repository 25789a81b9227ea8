# CircleProgressBar: the integer state of a ring progress view

`CircleProgressBar` is an Android view that draws a background ring and a
progress arc over it. This project models the non-graphical part of that view:

- the `max` and `progress` fields and the two public setters `setMaxValue` and
  `setProgress`;
- `correctProgress`, the rule that normalises a requested progress against
  `max`, including the remainder by zero that throws `ArithmeticException`;
- the construction-time defaults (max 100, progress 0, start angle -90,
  end angle 270, reverse false, round cap true), and the reset of a configured
  `max <= 0` to 100;
- `measure`, the per-axis size negotiation with the parent (exact, capped or
  unconstrained), and the copies `onMeasure` and `onSizeChanged` make of its
  result.

Two modules:

- `KotlinInt` (`kotlin_int.dfy`) models Kotlin's 32-bit `Int` as the newtype
  `Int32`, and Kotlin's truncating `/` and `%` as `Div` and `Rem`. Dafny's own
  operators are Euclidean, so they are not used for Kotlin arithmetic. `Rem` is
  proved to satisfy Kotlin's identity `a == (a / b) * b + a % b`. It is also
  proved to be the only remainder that is smaller than the divisor in magnitude
  and never has the opposite sign to the dividend.
- `CircleProgress` (`circle_progress_bar.dfy`) models the view.
  - `CorrectProgress` and `Measure` are pure functions with lemmas about them.
  - The attribute set is a record of optional values. `Configured` and
    `InitialState` give the state that construction produces.
  - The view is the class `CircleProgressBar`. Its fields are the source's own,
    plus the measured size it inherits from `View` and the ghost `redraws`.
    Its methods are specified through `State()` and change only what their
    `modifies` frames name.
  - `invalidate()` is modelled as the ghost counter `redraws`.
  - `Apply` gives the effect of one host call (`setMaxValue` or
    `setProgress`) on the state. `Run` gives the effect of a sequence of such
    calls. Both setters are specified against `Apply`. The lemmas about `Run`
    state what holds across any sequence of calls.

`correctProgress` reads the field `max`. It is modelled as a function that
takes `max` as an explicit parameter. It requires `!ThrowsArithmetic(progress,
max)`, i.e. not (`progress > max` and `max == 0`). That is the one input on
which the Kotlin code throws. `SetProgress` does not require this. It models
the exception as the returned `Completion` value
`ThrewArithmeticException`: nothing is stored and no redraw is requested, just
as in the source, where the throw happens before the assignment and before
`invalidate()`.

The intrinsic size `UiUtils.dp2px(90f)` belongs to code that is not part of
this model. It is the parameter `defaultSize` of `Measure`. The parent's
measure spec arrives already split into a `SpecMode` and a size.

Three consequences of the code are easy to miss:

- The stored progress is not confined to `[0, max]`. Negative values pass
  through `correctProgress` unchanged. A configured progress is stored without
  correction, so it may exceed `max`.
- `setMaxValue(0)` does not make drawing fail. Drawing divides a `Float` by
  `max`, and in Kotlin that gives NaN or infinity, not an exception. The only
  failure in the modelled operations is the `Int` remainder inside
  `correctProgress`, when a positive progress is set over a zero maximum.
- With a negative maximum, the remainder keeps the sign of the progress. So a
  stored value can lie above `max`. One example is `CorrectProgress(7, -5) ==
  2`, proved in `CorrectProgressNegativeMax`.

## Model

| member | source | states |
|---|---|---|
| `KotlinInt.Rem` | app/src/main/java/com/example/circleprogressbar/CircleProgressBar.kt:175-178 | Kotlin's `%`: the remainder is smaller than the divisor in magnitude, no larger than the dividend in magnitude, and never of the opposite sign to the dividend |
| `KotlinInt.DivRem` | app/src/main/java/com/example/circleprogressbar/CircleProgressBar.kt:175-178 | `a == (a / b) * b + a % b` with Kotlin's truncating division |
| `KotlinInt.RemUnique` | app/src/main/java/com/example/circleprogressbar/CircleProgressBar.kt:175-178 | every remainder of `a` by `b` that is below `b` in magnitude and shares the sign of `a` equals `Rem(a, b)`, so `Rem` is uniquely determined |
| `KotlinInt.RemAgreesWithModOnNaturals` | app/src/main/java/com/example/circleprogressbar/CircleProgressBar.kt:175-178 | for a non-negative dividend and a positive divisor, Kotlin's `%` is the Euclidean remainder |
| `KotlinInt.RemAndModOnNegatives` | app/src/main/java/com/example/circleprogressbar/CircleProgressBar.kt:175-178 | for a negative dividend and a positive divisor, Kotlin's `%` and the Euclidean remainder are both 0 on an exact multiple, and otherwise the Euclidean one is Kotlin's plus the divisor |
| `KotlinInt.RemDiffersFromModOnNegatives` | app/src/main/java/com/example/circleprogressbar/CircleProgressBar.kt:175-178 | an example of a negative dividend that is not a multiple of the divisor: `-7 % 3` is -1 in Kotlin and 2 in Euclidean arithmetic |
| `CircleProgress.Measure` | app/src/main/java/com/example/circleprogressbar/CircleProgressBar.kt:104-117 | EXACTLY yields the offered size; AT_MOST yields a value no larger than the offered size or the default, and equal to one of them; UNSPECIFIED yields the default |
| `CircleProgress.MeasureAtMostIsLargestFit` | app/src/main/java/com/example/circleprogressbar/CircleProgressBar.kt:111-114 | under AT_MOST, every size that fits under both the cap and the default is no larger than the result, so the result is their minimum |
| `CircleProgress.MeasureRoomyCapIsUnconstrained` | app/src/main/java/com/example/circleprogressbar/CircleProgressBar.kt:111-114 | a cap at least as large as the default gives the same size as no constraint |
| `CircleProgress.ThrowsOnlyOnPositiveProgressOverZero` | app/src/main/java/com/example/circleprogressbar/CircleProgressBar.kt:174-175 | `correctProgress` fails exactly when `max == 0` and the progress is positive |
| `CircleProgress.CorrectProgress` | app/src/main/java/com/example/circleprogressbar/CircleProgressBar.kt:172-182 | a progress `<= max` is kept exactly, negatives included; with `max > 0` the result never exceeds `max`; above a positive `max`, an exact multiple becomes `max`, and any other value becomes its remainder by `max`, which lies strictly between 0 and `max` |
| `CircleProgress.CorrectProgressNegativeMax` | app/src/main/java/com/example/circleprogressbar/CircleProgressBar.kt:174-180 | with a negative `max`, a progress above it becomes `max` exactly when its Kotlin remainder by `max` is 0, and otherwise a nonzero value of the progress's sign below `max` in magnitude, which can lie above `max` (7 becomes 2, -3 stays -3, 10 and 0 become -5 when max is -5) |
| `CircleProgress.CorrectProgressWraps` | app/src/main/java/com/example/circleprogressbar/CircleProgressBar.kt:174-179 | above any nonzero `max`, negative ones included, the stored value differs from the requested progress by a whole multiple of `max` |
| `CircleProgress.CorrectProgressUnique` | app/src/main/java/com/example/circleprogressbar/CircleProgressBar.kt:174-179 | above a positive `max`, the stored value is the only value in `(0, max]` that differs from the request by a multiple of `max` |
| `CircleProgress.CorrectProgressIdempotent` | app/src/main/java/com/example/circleprogressbar/CircleProgressBar.kt:172-182 | for every `max` on which it does not throw, including negative ones, normalising the result again is defined and changes nothing |
| `CircleProgress.Configured` | app/src/main/java/com/example/circleprogressbar/CircleProgressBar.kt:71-90 | each absent attribute takes its default; a configured max is kept when positive and otherwise replaced by 100, so the max is always positive; the configured progress is stored uncorrected |
| `CircleProgress.InitialState` | app/src/main/java/com/example/circleprogressbar/CircleProgressBar.kt:63-68 | without an attribute set the view starts from the defaults (max 100, progress 0, angles -90 and 270, reverse false, round cap true); with one it starts from `Configured`; either way max > 0 |
| `CircleProgress.EmptyAttributesAreDefaults` | app/src/main/java/com/example/circleprogressbar/CircleProgressBar.kt:19-24 | an attribute set that sets nothing gives the same state as no attribute set |
| `CircleProgress.ConfiguredProgressIsNotCorrected` | app/src/main/java/com/example/circleprogressbar/CircleProgressBar.kt:73-81 | configuring max 100 and progress 150 stores 150, whereas `correctProgress` would have stored 50 |
| `CircleProgress.Apply` | app/src/main/java/com/example/circleprogressbar/CircleProgressBar.kt:162-170 | one host call: `setMaxValue` replaces only `max`; `setProgress` throws exactly when `ThrowsArithmetic`, and otherwise replaces only `progress`, by `CorrectProgress` under the current `max` |
| `CircleProgress.RunSnoc` | app/src/main/java/com/example/circleprogressbar/CircleProgressBar.kt:162-170 | running a sequence of calls and then one more call is one `Apply` step after the run, and a throw anywhere ends the sequence |
| `CircleProgress.PositiveMaxNeverThrows` | app/src/main/java/com/example/circleprogressbar/CircleProgressBar.kt:162-181 | a run that starts from a positive `max` and only ever sets positive maxima never throws, and keeps `max` positive |
| `CircleProgress.ConstructedViewNeverThrows` | app/src/main/java/com/example/circleprogressbar/CircleProgressBar.kt:73-76 | construction makes `max` positive; so on a new view, any calls that set only positive maxima never throw, and a final `setProgress` leaves `progress <= max` |
| `CircleProgress.CircleProgressBar.constructor` | app/src/main/java/com/example/circleprogressbar/CircleProgressBar.kt:30-68 | the new view's state is `InitialState(attrs)`, its max is positive, its sizes are 0, and no redraw has been requested |
| `CircleProgress.CircleProgressBar.ParseAttribute` | app/src/main/java/com/example/circleprogressbar/CircleProgressBar.kt:71-90 | the fields become `Configured(attrs)` |
| `CircleProgress.CircleProgressBar.OnMeasure` | app/src/main/java/com/example/circleprogressbar/CircleProgressBar.kt:99-102 | the measured width and height are `Measure` of their own axis's spec; the widget state is unchanged |
| `CircleProgress.CircleProgressBar.OnSizeChanged` | app/src/main/java/com/example/circleprogressbar/CircleProgressBar.kt:119-122 | the stored size is copied from the measured size, not from the arguments; the widget state is unchanged |
| `CircleProgress.CircleProgressBar.SetMaxValue` | app/src/main/java/com/example/circleprogressbar/CircleProgressBar.kt:162-165 | any integer, zero and negatives included, is stored as `max` unchanged; nothing else in the state changes; exactly one redraw is requested |
| `CircleProgress.CircleProgressBar.SetProgress` | app/src/main/java/com/example/circleprogressbar/CircleProgressBar.kt:167-170 | the call throws exactly when `ThrowsArithmetic`, and then changes nothing and requests no redraw; otherwise only `progress` changes, to `CorrectProgress(newProgress, max)`, with one redraw; with `max > 0` it never throws and leaves `progress <= max` |

## Left out

- Drawing (`onDraw`, `drawArc`, `initPaint`, paint style, stroke cap, colours): these are calls into the platform's 2D graphics and have no state to model.
- The sweep angle `progress / max * (endAngle - startAngle)` and its negation under `reverse`: this is `Float` arithmetic, so it is not modelled. The angles are kept as exact `real` values that are only stored.
- `ringWidth`, `ringColor`, `ringBackgroundColor` and `mRectF`: the size and the rectangle are floating-point, and the colours are used only for drawing.
- Drawing before the first size change: `mRectF` is `lateinit` and is assigned only in `onSizeChanged`, so a draw that comes first reads it uninitialised and throws `UninitializedPropertyAccessException`. Drawing is not modelled, so this failure is not either.
- CircleProgress.CircleProgressBar.OnSizeChanged: does not build the inset rectangle `mRectF`, because that is `Float` arithmetic.
- CircleProgress.CircleProgressBar.OnMeasure: the call to `super.onMeasure` is left out. The framework's own measured size is overwritten at once by `setMeasuredDimension`.
- `obtainStyledAttributes`, `TypedArray` lookups and `recycle()`: these are platform calls. Only the defaulting and validation they feed is modelled, through the `Attributes` record.
- `MeasureSpec.getMode` and `getSize` bit packing, and `UiUtils.dp2px`: the first is library code and the second is not part of this model. The mode is a datatype, the size a natural number, and the 90dp edge the parameter `defaultSize`.
- `invalidate()` scheduling and the host's redraw coalescing: modelled only by counting requests in the ghost field `redraws`.
- Threading: the view runs on the UI thread only, so there is nothing concurrent to model.
