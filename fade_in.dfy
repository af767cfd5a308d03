/**
 * The fade-in transition rules of MaterialLoadingImage.kt: the two
 * transition states, the value each animated channel (alpha, brightness,
 * saturation) takes in each state, the length of each channel's animation
 * as a share of the total duration, and the `isFinished` flag.
 *
 * The animation runtime the source hands these rules to (its remembered
 * state, its clock and its interpolation) is not part of this model; what
 * remains is stated exactly.
 *
 * Abstraction: the source's 32-bit floats are `real` here. Its `Int`
 * durations keep their 32-bit width: `int32` below, with Kotlin's
 * wrap-around on multiplication and truncation toward zero on division
 * written out.
 */
module FadeIn {
  import opened ColorMatrixEffects

  /** The two states of an image's fade-in, in the source's order. */
  datatype ImageLoadTransitionState = Loaded | Empty

  // ---------------------------------------------------------------------
  // Target value of each channel, per state
  // ---------------------------------------------------------------------

  /** The opacity the image is drawn with in `state`: transparent until loaded. */
  function AlphaTarget(state: ImageLoadTransitionState): (alpha: real)
    ensures 0.0 <= alpha <= 1.0
    ensures alpha == 1.0 <==> state == Loaded
  {
    if state == Loaded then 1.0 else 0.0
  }

  /** The brightness the image is drawn with in `state`: 80% until loaded. */
  function BrightnessTarget(state: ImageLoadTransitionState): (brightness: real)
    ensures 0.8 <= brightness <= 1.0
    ensures brightness == 1.0 <==> state == Loaded
  {
    if state == Loaded then 1.0 else 0.8
  }

  /** The saturation the image is drawn with in `state`: grey until loaded. */
  function SaturationTarget(state: ImageLoadTransitionState): (saturation: real)
    ensures 0.0 <= saturation <= 1.0
    ensures saturation == 1.0 <==> state == Loaded
  {
    if state == Loaded then 1.0 else 0.0
  }

  /** The table of targets: Loaded is (1, 1, 1), Empty is (0, 0.8, 0). */
  lemma TargetsByState()
    ensures (AlphaTarget(Loaded), BrightnessTarget(Loaded), SaturationTarget(Loaded)) == (1.0, 1.0, 1.0)
    ensures (AlphaTarget(Empty), BrightnessTarget(Empty), SaturationTarget(Empty)) == (0.0, 0.8, 0.0)
  {
  }

  /**
   * The colour matrix `m` after all three channels are set to their targets
   * in `state`: the RGB block holds the saturation target's blend, the colour
   * offsets the brightness target's darkening, cell (3, 3) the alpha target,
   * and every other cell (the rest of row 3 and the alpha column of the
   * colour rows) is untouched.
   */
  function WithTargets(m: Matrix, state: ImageLoadTransitionState): (r: Matrix)
    requires IsMatrix(m)
    ensures IsMatrix(r)
    ensures forall i, j | 0 <= i < 3 && 0 <= j < 3 :: r[i][j] == SaturationEntry(SaturationTarget(state), i, j)
    ensures forall i | 0 <= i < 3 :: r[i][4] == (1.0 - BrightnessTarget(state)) * 255.0
    ensures r[3][3] == AlphaTarget(state)
    ensures forall i, j | 0 <= i < Rows && 0 <= j < Columns && (i == 3 || j == 3) && (i, j) != (3, 3) :: r[i][j] == m[i][j]
  {
    WithAlpha(Brightened(Saturated(m, SaturationTarget(state)), BrightnessTarget(state)), AlphaTarget(state))
  }

  /**
   * Once loaded, the effect disappears: the three channels' targets turn an
   * identity matrix into the identity matrix, whether the updaters run in
   * the order saturation, brightness, alpha or in the reverse order alpha,
   * brightness, saturation.
   */
  lemma LoadedTargetsGiveIdentity()
    ensures WithTargets(Identity(), Loaded) == Identity()
    ensures Saturated(Brightened(WithAlpha(Identity(), 1.0), 1.0), 1.0) == Identity()
  {
    SameCells(WithTargets(Identity(), Loaded), Identity());
    SameCells(Saturated(Brightened(WithAlpha(Identity(), 1.0), 1.0), 1.0), Identity());
  }

  /**
   * While empty, the image is fully transparent, every colour row is the
   * grey projection, and the three colour offsets are (1 - 0.8) * 255 = 51.
   */
  lemma EmptyTargetsGreyAndTransparent(m: Matrix)
    requires IsMatrix(m)
    ensures WithTargets(m, Empty)[3][3] == 0.0
    ensures forall i | 0 <= i < 3 :: WithTargets(m, Empty)[i][..3] == GreyRow
    ensures forall i | 0 <= i < 3 :: WithTargets(m, Empty)[i][4] == 51.0
  {
  }

  // ---------------------------------------------------------------------
  // Sub-durations, in Kotlin Int arithmetic
  // ---------------------------------------------------------------------

  newtype int32 = x: int | -0x8000_0000 <= x < 0x8000_0000

  /** The largest duration whose triple still fits in an `int32`. */
  const MaxSafeDurationMs: int32 := 715_827_882

  /** Kotlin's Int overflow: the `int32` congruent to `x` modulo 2^32. */
  function Wrap32(x: int): (r: int32)
    ensures (r as int - x) % 0x1_0000_0000 == 0
    ensures -0x8000_0000 <= x < 0x8000_0000 ==> r as int == x
  {
    var y := x % 0x1_0000_0000;
    if y < 0x8000_0000 then y as int32 else (y - 0x1_0000_0000) as int32
  }

  /** Kotlin's Int division by a positive divisor: the quotient rounded toward zero. */
  function Quot(a: int, b: int): (q: int)
    requires 0 < b
    ensures 0 <= a ==> 0 <= a - q * b < b
    ensures a < 0 ==> -b < a - q * b <= 0
  {
    if 0 <= a then
      var q := a / b;
      assert a - q * b == a % b;
      q
    else
      var p := (-a) / b;
      assert -a - p * b == (-a) % b;
      assert a - (-p) * b == -((-a) % b);
      -p
  }

  /** Alpha animates over the first half of the duration. */
  function AlphaDurationMs(durationMs: int32): (r: int32)
    ensures 0 <= durationMs ==> 0 <= durationMs as int - 2 * r as int < 2
    ensures durationMs < 0 ==> -2 < durationMs as int - 2 * r as int <= 0
  {
    Quot(durationMs as int, 2) as int32
  }

  /**
   * Brightness as written: `durationMs * 3 / 4` with the product in `int32`,
   * which wraps around once `durationMs` exceeds `MaxSafeDurationMs`.
   */
  function BrightnessDurationMsAsWritten(durationMs: int32): (r: int32)
    ensures -MaxSafeDurationMs <= durationMs <= MaxSafeDurationMs ==> r == BrightnessDurationMs(durationMs)
  {
    Quot(Wrap32(durationMs as int * 3) as int, 4) as int32
  }

  /**
   * Brightness animates over the first three quarters of the duration:
   * `durationMs * 3 / 4` computed without overflow (the quotient always fits
   * in an `int32`).
   */
  function BrightnessDurationMs(durationMs: int32): (r: int32)
    ensures 0 <= durationMs ==> 0 <= 3 * durationMs as int - 4 * r as int < 4
    ensures durationMs < 0 ==> -4 < 3 * durationMs as int - 4 * r as int <= 0
  {
    Quot(durationMs as int * 3, 4) as int32
  }

  /** Saturation animates over the whole duration. */
  function SaturationDurationMs(durationMs: int32): (r: int32)
    ensures r == durationMs
  {
    durationMs
  }

  /**
   * The channels finish in order: alpha first, then brightness, then
   * saturation at the full duration. A zero duration makes all three zero.
   * (For a negative duration the three are ordered the other way round.)
   * The source's own brightness expression keeps the order exactly while
   * the duration's triple fits in an `int32`.
   */
  lemma SubDurationsOrdered(durationMs: int32)
    ensures 0 <= durationMs ==>
      0 <= AlphaDurationMs(durationMs) <= BrightnessDurationMs(durationMs) <= SaturationDurationMs(durationMs)
    ensures durationMs < 0 ==>
      SaturationDurationMs(durationMs) <= BrightnessDurationMs(durationMs) <= AlphaDurationMs(durationMs) <= 0
    ensures durationMs == 0 ==>
      AlphaDurationMs(durationMs) == BrightnessDurationMs(durationMs) == SaturationDurationMs(durationMs) == 0
    ensures 0 <= durationMs <= MaxSafeDurationMs ==>
      AlphaDurationMs(durationMs) <= BrightnessDurationMsAsWritten(durationMs) <= SaturationDurationMs(durationMs)
  {
  }

  /**
   * The overflow: for a duration of 715827883 ms the source's product wraps
   * to -2147483647, and the brightness animation gets a negative length,
   * shorter than the alpha animation, while three quarters of the duration
   * is 536870912.
   */
  lemma BrightnessDurationOverflows()
    ensures BrightnessDurationMsAsWritten(MaxSafeDurationMs + 1) == -536_870_911
    ensures BrightnessDurationMsAsWritten(MaxSafeDurationMs + 1) < AlphaDurationMs(MaxSafeDurationMs + 1)
    ensures BrightnessDurationMs(MaxSafeDurationMs + 1) == 536_870_912
  {
  }

  /** The source's expression is right exactly for the durations whose triple fits in an `int32`. */
  lemma AsWrittenCorrectExactlyWithoutOverflow(durationMs: int32)
    ensures BrightnessDurationMsAsWritten(durationMs) == BrightnessDurationMs(durationMs)
      <==> -MaxSafeDurationMs <= durationMs <= MaxSafeDurationMs
  {
  }

  // ---------------------------------------------------------------------
  // Transition state and the isFinished flag
  // ---------------------------------------------------------------------

  /**
   * The runtime's mutable transition state, reduced to what the source
   * uses: the state the transition rests in and the state it heads for.
   */
  class TransitionState {
    var currentState: ImageLoadTransitionState
    var targetState: ImageLoadTransitionState

    /** A transition at rest in `initialState`. */
    constructor (initialState: ImageLoadTransitionState)
      ensures currentState == initialState && targetState == initialState
    {
      currentState := initialState;
      targetState := initialState;
    }
  }

  /** A new fade-in starts in Empty and is immediately aimed at Loaded. */
  method NewFadeInTransitionState() returns (t: TransitionState)
    ensures fresh(t)
    ensures t.currentState == Empty && t.targetState == Loaded
  {
    t := new TransitionState(Empty);
    t.targetState := Loaded;
  }

  /**
   * The values a frame reads: the three animated channels, read-only as the
   * source's delegated `val`s are, and whether the fade is over.
   */
  class FadeInTransition {
    const alpha: real
    const brightness: real
    const saturation: real
    var isFinished: bool

    /** A fade whose channels currently read the given values; not yet finished. */
    constructor (alpha: real, brightness: real, saturation: real)
      ensures this.alpha == alpha && this.brightness == brightness && this.saturation == saturation
      ensures !isFinished
    {
      this.alpha := alpha;
      this.brightness := brightness;
      this.saturation := saturation;
      isFinished := false;
    }

    /** A fade built from the default channel values, all zero. */
    constructor Default()
      ensures alpha == 0.0 && brightness == 0.0 && saturation == 0.0
      ensures !isFinished
    {
      alpha := 0.0;
      brightness := 0.0;
      saturation := 0.0;
      isFinished := false;
    }

    /**
     * The fade is finished exactly when the transition rests in Loaded. The
     * channels are read-only, as in the source, so only `isFinished` changes.
     */
    method UpdateIsFinished(transitionState: TransitionState)
      modifies this`isFinished
      ensures isFinished <==> transitionState.currentState == Loaded
    {
      isFinished := transitionState.currentState == Loaded;
    }
  }
}
