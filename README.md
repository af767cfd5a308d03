# Fade-in with colour correction for loading images

A Dafny model of the fade-in effect of the `imageloading-core` library
(`MaterialLoadingImage.kt`). When an image finishes loading it is faded in
over three animated channels:

- alpha, from 0 to 1, over the first half of the duration;
- brightness, from 0.8 to 1, over the first three quarters;
- saturation, from 0 (grey) to 1, over the whole duration.

Each frame, the three values are written into a 4 x 5 colour matrix by three
updaters. Each updater overwrites a fixed set of cells:

- `updateSaturation` writes the 3 x 3 RGB block;
- `updateBrightness` writes the offset column of the three colour rows;
- `updateAlpha` writes cell (3, 3).

The model has two modules:

- `ColorMatrixEffects` (`color_matrix.dfy`). The matrix as a value (`Matrix`)
  and the pure functions `Saturated`, `Brightened` and `WithAlpha`, which say
  exactly which cells each updater writes, with what, and that nothing else
  changes. Lemmas about them follow: identity at full saturation, grey at
  zero, rows that sum to 1, overwrite rather than accumulate, and updaters
  that commute. The class `ColorMatrix` holds the cells in an
  `array2<real>`. Its methods `UpdateSaturation`, `UpdateBrightness` and
  `UpdateAlpha` make the source's assignments in place, each through the
  one-cell setter `Set`, and are proved against those functions.
- `FadeIn` (`fade_in.dfy`). The two transition states and the target value
  of each channel in each state. The three sub-durations use Kotlin `Int`
  arithmetic: 32-bit wrap-around on multiplication and truncation toward
  zero on division. It also models the transition-state holder created at
  the start of a fade, and the `FadeInTransition` object with its
  `isFinished` flag.

The source's 32-bit floats are modelled as `real`. Every equation is exact
here; in the source it holds only up to rounding. Durations stay 32-bit.

Two points of the code worth knowing:

- The value `updateBrightness` writes, which the source calls the darkening,
  is `(1 - brightness) * 255`: 0 at brightness 1 and +255 at brightness 0.
  The model states the value written. What an offset does to a pixel is
  defined by the host's `ColorMatrix` type, which is not part of this model.
- Nothing in the code rejects a negative duration. The model accepts every
  32-bit `Int` and keeps Kotlin's truncating division for negative ones.

## Model

| member | source | states |
|---|---|---|
| `ColorMatrixEffects.Saturated` | imageloading-core/src/main/java/com/google/accompanist/imageloading/MaterialLoadingImage.kt:98-112 | the nine cells of rows 0-2 × columns 0-2 become the blend `(1 - s) * weight(column) + s * [row == column]` of the grey projection and the identity; every other cell, including row 3 and column 4, is unchanged |
| `ColorMatrixEffects.SaturationOneIsIdentity` | imageloading-core/src/main/java/com/google/accompanist/imageloading/MaterialLoadingImage.kt:99-111 | saturation 1 makes the RGB block the identity |
| `ColorMatrixEffects.SaturationZeroIsGrey` | imageloading-core/src/main/java/com/google/accompanist/imageloading/MaterialLoadingImage.kt:99-111 | saturation 0 makes each of rows 0-2 of the block equal to [0.213, 0.715, 0.072] |
| `ColorMatrixEffects.SaturationRowsSumToOne` | imageloading-core/src/main/java/com/google/accompanist/imageloading/MaterialLoadingImage.kt:99-111 | the weights sum to 1, so for any saturation each row of the block sums to 1 |
| `ColorMatrixEffects.SaturationOverwrites` | imageloading-core/src/main/java/com/google/accompanist/imageloading/MaterialLoadingImage.kt:94-112 | saturation `a` then `b` equals `b` alone, and a repeated call changes nothing: the block is overwritten, not accumulated |
| `ColorMatrixEffects.Brightened` | imageloading-core/src/main/java/com/google/accompanist/imageloading/MaterialLoadingImage.kt:114-119 | cells (0,4), (1,4) and (2,4) all become `(1 - b) * 255`; every other cell is unchanged |
| `ColorMatrixEffects.BrightnessOffsets` | imageloading-core/src/main/java/com/google/accompanist/imageloading/MaterialLoadingImage.kt:114-119 | brightness 1 writes offset 0, brightness 0 writes 255, and a brightness in [0, 1] writes an offset in [0, 255] |
| `ColorMatrixEffects.BrightnessOverwrites` | imageloading-core/src/main/java/com/google/accompanist/imageloading/MaterialLoadingImage.kt:114-119 | brightness `a` then `b` equals `b` alone |
| `ColorMatrixEffects.WithAlpha` | imageloading-core/src/main/java/com/google/accompanist/imageloading/MaterialLoadingImage.kt:121 | exactly cell (3,3) becomes `alpha`; no other cell changes |
| `ColorMatrixEffects.AlphaOverwrites` | imageloading-core/src/main/java/com/google/accompanist/imageloading/MaterialLoadingImage.kt:121 | alpha `a` then `b` equals `b` alone |
| `ColorMatrixEffects.UpdatesCommute` | imageloading-core/src/main/java/com/google/accompanist/imageloading/MaterialLoadingImage.kt:98-121 | the three updaters write disjoint cells, so every pair of them commutes |
| `ColorMatrixEffects.ColorMatrix.Set` | imageloading-core/src/main/java/com/google/accompanist/imageloading/MaterialLoadingImage.kt:121 | in place: exactly cell (row, column) becomes `v`; the new cells are `SetCell` of the old ones, so every other cell keeps its value |
| `ColorMatrixEffects.ColorMatrix.UpdateSaturation` | imageloading-core/src/main/java/com/google/accompanist/imageloading/MaterialLoadingImage.kt:98-112 | in place: the nine block cells hold the saturation entries and every other cell keeps its old value; the new cells are `Saturated` of the old ones |
| `ColorMatrixEffects.ColorMatrix.UpdateBrightness` | imageloading-core/src/main/java/com/google/accompanist/imageloading/MaterialLoadingImage.kt:114-119 | in place: the three offsets hold `(1 - b) * 255` and every other cell keeps its old value; the new cells are `Brightened` of the old ones |
| `ColorMatrixEffects.ColorMatrix.UpdateAlpha` | imageloading-core/src/main/java/com/google/accompanist/imageloading/MaterialLoadingImage.kt:121 | in place: cell (3,3) holds `alpha` and every other cell keeps its old value; the new cells are `WithAlpha` of the old ones |
| `FadeIn.AlphaTarget` | imageloading-core/src/main/java/com/google/accompanist/imageloading/MaterialLoadingImage.kt:53 | the alpha target lies in [0, 1] and is 1 exactly in Loaded |
| `FadeIn.BrightnessTarget` | imageloading-core/src/main/java/com/google/accompanist/imageloading/MaterialLoadingImage.kt:60 | the brightness target lies in [0.8, 1] and is 1 exactly in Loaded |
| `FadeIn.SaturationTarget` | imageloading-core/src/main/java/com/google/accompanist/imageloading/MaterialLoadingImage.kt:67 | the saturation target lies in [0, 1] and is 1 exactly in Loaded |
| `FadeIn.TargetsByState` | imageloading-core/src/main/java/com/google/accompanist/imageloading/MaterialLoadingImage.kt:51-69 | Loaded gives (alpha, brightness, saturation) = (1, 1, 1); Empty gives (0, 0.8, 0) |
| `FadeIn.WithTargets` | imageloading-core/src/main/java/com/google/accompanist/imageloading/MaterialLoadingImage.kt:51-69 | with every channel at its target in a state, the RGB block is the saturation target's blend, each colour offset is `(1 - brightness target) * 255`, cell (3,3) is the alpha target, and every other cell is unchanged |
| `FadeIn.LoadedTargetsGiveIdentity` | imageloading-core/src/main/java/com/google/accompanist/imageloading/MaterialLoadingImage.kt:51-69 | `WithTargets` with the Loaded targets turns an identity matrix into the identity, and so do the updaters in the reverse order alpha, brightness, saturation: a loaded image is drawn unchanged |
| `FadeIn.EmptyTargetsGreyAndTransparent` | imageloading-core/src/main/java/com/google/accompanist/imageloading/MaterialLoadingImage.kt:51-69 | `WithTargets` with the Empty targets makes cell (3,3) 0, every colour row of the block the grey weights, and every colour offset 51 |
| `FadeIn.Wrap32` | imageloading-core/src/main/java/com/google/accompanist/imageloading/MaterialLoadingImage.kt:59 | Kotlin `Int` multiplication: the result is congruent to the exact product modulo 2^32, and equal to it when it fits |
| `FadeIn.Quot` | imageloading-core/src/main/java/com/google/accompanist/imageloading/MaterialLoadingImage.kt:52 | Kotlin `Int` division by a positive divisor: the quotient is rounded toward zero, with the remainder taking the sign of the dividend |
| `FadeIn.AlphaDurationMs` | imageloading-core/src/main/java/com/google/accompanist/imageloading/MaterialLoadingImage.kt:52 | the alpha duration is half the total duration, rounded toward zero |
| `FadeIn.BrightnessDurationMsAsWritten` | imageloading-core/src/main/java/com/google/accompanist/imageloading/MaterialLoadingImage.kt:59 | `durationMs * 3 / 4` with a 32-bit product; it agrees with the exact three quarters whenever abs(durationMs) <= 715827882 |
| `FadeIn.BrightnessDurationMs` | imageloading-core/src/main/java/com/google/accompanist/imageloading/MaterialLoadingImage.kt:59 | the brightness duration is three quarters of the total duration, rounded toward zero, for every 32-bit duration |
| `FadeIn.SaturationDurationMs` | imageloading-core/src/main/java/com/google/accompanist/imageloading/MaterialLoadingImage.kt:66 | the saturation duration is the whole duration |
| `FadeIn.SubDurationsOrdered` | imageloading-core/src/main/java/com/google/accompanist/imageloading/MaterialLoadingImage.kt:50-66 | for durationMs >= 0: 0 <= `AlphaDurationMs` <= `BrightnessDurationMs` (the corrected three quarters) <= `SaturationDurationMs`; all three are 0 when durationMs is 0; the order reverses for a negative duration; the source's own `BrightnessDurationMsAsWritten` keeps the order for 0 <= durationMs <= 715827882 |
| `FadeIn.BrightnessDurationOverflows` | imageloading-core/src/main/java/com/google/accompanist/imageloading/MaterialLoadingImage.kt:59 | at durationMs = 715827883 the source's expression gives -536870911, shorter than the alpha duration; the exact value is 536870912 |
| `FadeIn.AsWrittenCorrectExactlyWithoutOverflow` | imageloading-core/src/main/java/com/google/accompanist/imageloading/MaterialLoadingImage.kt:59 | the source's expression equals the exact three quarters if and only if abs(durationMs) <= 715827882 |
| `FadeIn.NewFadeInTransitionState` | imageloading-core/src/main/java/com/google/accompanist/imageloading/MaterialLoadingImage.kt:38-41 | a new transition state is fresh, rests in Empty and targets Loaded |
| `FadeIn.FadeInTransition.Default` | imageloading-core/src/main/java/com/google/accompanist/imageloading/MaterialLoadingImage.kt:79-87 | a transition built with the default channels reads alpha, brightness and saturation 0 and is not finished |
| `FadeIn.FadeInTransition.constructor` | imageloading-core/src/main/java/com/google/accompanist/imageloading/MaterialLoadingImage.kt:79-87 | a transition reads the channel values it is given, which are read-only, and is not finished |
| `FadeIn.FadeInTransition.UpdateIsFinished` | imageloading-core/src/main/java/com/google/accompanist/imageloading/MaterialLoadingImage.kt:71-75 | `isFinished` holds exactly when the transition's current state is Loaded; only `isFinished` may change, the channels being read-only |

## Findings

| source | as written | input that shows it | evidently intended | confidence | as-written member | corrected member |
|---|---|---|---|---|---|---|
| imageloading-core/src/main/java/com/google/accompanist/imageloading/MaterialLoadingImage.kt:59 | `durationMs * 3 / 4` multiplies in 32-bit `Int`, so the product wraps for abs(durationMs) > 715827882 | durationMs = 715827883 gives a brightness duration of -536870911, negative and shorter than the alpha duration 357913941 | three quarters of the duration, 536870912 (for example computed as `durationMs / 4 * 3 + durationMs % 4 * 3 / 4` or in `Long`) | not executed; follows from Kotlin's `Int` overflow rules; needs a duration over 8 days | `FadeIn.BrightnessDurationOverflows` | `FadeIn.BrightnessDurationMs` |

The rest of the model, `SubDurationsOrdered` included, uses the corrected
`BrightnessDurationMs`. `BrightnessDurationMsAsWritten` and
`AsWrittenCorrectExactlyWithoutOverflow` relate the two definitions.

## Left out

- The animation runtime: `remember`, `updateTransition`, `animateFloat`, `tween`, `MutableTransitionState` and `mutableStateOf` with the `State` delegates. Its clock, its interpolation between targets, its caching by key and the moment it moves `currentState` to `targetState` are not shown in the source. The model keeps only what the source decides: the targets, the sub-durations, the initial and target states, and how `isFinished` is derived.
- `FadeIn.TransitionState`: the runtime's transition-state holder is reduced to its two fields `currentState` and `targetState`. Its constructor, which rests the holder in its initial state, stands in for the runtime's own and has no source line.
- `FadeIn.FadeInTransition`: the source's `alpha`, `brightness` and `saturation` are live views of animated state. The model holds a snapshot of the three values and has no operation that advances them.
- `isFromMemory` (line 92): it depends on `ImageLoadState` and `DataSource`, which are not part of this model.
- `ColorMatrixEffects.ColorMatrix.constructor`: the host's `ColorMatrix` storage and its `set(row, column, v)` indexing are abstracted to a 4 x 5 array. The constructor takes the caller's initial cells instead of the host's default identity.
- IEEE-754 `Float` rounding: all colour arithmetic is over `real`. The equations proved (rows summing to 1, the grey weights, the offsets) are exact over the reals; in `Float` they hold up to rounding.
