/**
 * The colour-matrix updaters of the image fade-in effect
 * (MaterialLoadingImage.kt, updateSaturation, updateBrightness and
 * updateAlpha).
 *
 * A colour matrix is a 4 x 5 grid applied to every pixel: rows 0-3 produce
 * the output channels R, G, B and A, columns 0-3 scale the input channels
 * R, G, B and A, and column 4 is an additive offset in 0-255 pixel space.
 * Each updater overwrites a fixed set of cells and leaves every other cell
 * as it was, so the caller can keep one matrix and refresh it every frame.
 *
 * Abstraction: the source computes with 32-bit floats; this model computes
 * with `real`. Every equation proved here is exact over the reals and holds
 * only up to rounding in the source.
 *
 * The module has two layers:
 *  - `Matrix` values and the pure functions `Saturated`, `Brightened` and
 *    `WithAlpha`, which state what each updater does to a matrix, with the
 *    lemmas about them;
 *  - the class `ColorMatrix`, which holds the cells in an `array2<real>` and
 *    whose methods perform the same cell assignments as the source, in
 *    place, proved against those functions.
 */
module ColorMatrixEffects {

  const Rows := 4
  const Columns := 5

  /** A colour matrix as a value: `m[i][j]` is the cell in row i, column j. */
  type Matrix = seq<seq<real>>

  predicate IsMatrix(m: Matrix) {
    |m| == Rows && forall i | 0 <= i < Rows :: |m[i]| == Columns
  }

  /** Two matrices with the same cells are the same matrix. */
  lemma SameCells(a: Matrix, b: Matrix)
    requires IsMatrix(a) && IsMatrix(b)
    requires forall i, j | 0 <= i < Rows && 0 <= j < Columns :: a[i][j] == b[i][j]
    ensures a == b
  {
    forall i | 0 <= i < Rows
      ensures a[i] == b[i]
    {
      assert |a[i]| == |b[i]| == Columns;
      forall j | 0 <= j < Columns
        ensures a[i][j] == b[i][j]
      {
      }
    }
  }

  /** The matrix `m` with the single cell (i, j) overwritten by `v`. */
  function SetCell(m: Matrix, i: nat, j: nat, v: real): (r: Matrix)
    requires IsMatrix(m) && i < Rows && j < Columns
    ensures IsMatrix(r)
    ensures forall p, q | 0 <= p < Rows && 0 <= q < Columns ::
      r[p][q] == if p == i && q == j then v else m[p][q]
  {
    m[i := m[i][j := v]]
  }

  /** The matrix that leaves every pixel as it is. */
  function Identity(): (r: Matrix)
    ensures IsMatrix(r)
    ensures forall i, j | 0 <= i < Rows && 0 <= j < Columns :: r[i][j] == if i == j then 1.0 else 0.0
  {
    [[1.0, 0.0, 0.0, 0.0, 0.0],
     [0.0, 1.0, 0.0, 0.0, 0.0],
     [0.0, 0.0, 1.0, 0.0, 0.0],
     [0.0, 0.0, 0.0, 1.0, 0.0]]
  }

  // ---------------------------------------------------------------------
  // Saturation: the 3 x 3 block of rows 0-2 and columns 0-2
  // ---------------------------------------------------------------------

  /** The grey projection: the luminance weights of red, green and blue. */
  const GreyRow: seq<real> := [0.213, 0.715, 0.072]

  /**
   * Reference definition of the saturation block: cell (i, j) is the share
   * `(1 - s)` of the grey projection's weight for column j, plus `s` on the
   * diagonal, i.e. the blend with factor `s` between grey and the identity.
   */
  function SaturationEntry(s: real, i: nat, j: nat): real
    requires i < 3 && j < 3
  {
    var grey := if j == 0 then 0.213 * (1.0 - s) else if j == 1 then 0.715 * (1.0 - s) else 0.072 * (1.0 - s);
    if i == j then grey + s else grey
  }

  /**
   * What updateSaturation does to a matrix: the nine assignments of the
   * source, in the source's order. The contract says which cells change,
   * to what, and that nothing else moves.
   */
  function Saturated(m: Matrix, saturation: real): (r: Matrix)
    requires IsMatrix(m)
    ensures IsMatrix(r)
    ensures forall i, j | 0 <= i < 3 && 0 <= j < 3 :: r[i][j] == SaturationEntry(saturation, i, j)
    ensures forall i, j | 0 <= i < Rows && 0 <= j < Columns && (i >= 3 || j >= 3) :: r[i][j] == m[i][j]
  {
    var invSat := 1.0 - saturation;
    var red := 0.213 * invSat;
    var green := 0.715 * invSat;
    var blue := 0.072 * invSat;
    var m0 := SetCell(SetCell(SetCell(m, 0, 0, red + saturation), 0, 1, green), 0, 2, blue);
    var m1 := SetCell(SetCell(SetCell(m0, 1, 0, red), 1, 1, green + saturation), 1, 2, blue);
    SetCell(SetCell(SetCell(m1, 2, 0, red), 2, 1, green), 2, 2, blue + saturation)
  }

  /** Full saturation makes the RGB block the identity. */
  lemma SaturationOneIsIdentity(m: Matrix)
    requires IsMatrix(m)
    ensures forall i, j | 0 <= i < 3 && 0 <= j < 3 :: Saturated(m, 1.0)[i][j] == Identity()[i][j]
  {
  }

  /** Zero saturation makes every colour row the luminance weights: grey. */
  lemma SaturationZeroIsGrey(m: Matrix)
    requires IsMatrix(m)
    ensures forall i | 0 <= i < 3 :: Saturated(m, 0.0)[i][..3] == GreyRow
  {
  }

  /**
   * Whatever the saturation, each colour row of the block sums to 1, since
   * the weights do: a grey pixel stays the same grey.
   */
  lemma SaturationRowsSumToOne(m: Matrix, s: real)
    requires IsMatrix(m)
    ensures forall i | 0 <= i < 3 :: Saturated(m, s)[i][0] + Saturated(m, s)[i][1] + Saturated(m, s)[i][2] == 1.0
  {
  }

  /**
   * updateSaturation overwrites, it does not accumulate: a second call
   * erases the first, and a repeated call changes nothing.
   */
  lemma SaturationOverwrites(m: Matrix, a: real, b: real)
    requires IsMatrix(m)
    ensures Saturated(Saturated(m, a), b) == Saturated(m, b)
    ensures Saturated(Saturated(m, b), b) == Saturated(m, b)
  {
    SameCells(Saturated(Saturated(m, a), b), Saturated(m, b));
    SameCells(Saturated(Saturated(m, b), b), Saturated(m, b));
  }

  // ---------------------------------------------------------------------
  // Brightness: the offset column, rows 0-2
  // ---------------------------------------------------------------------

  /**
   * What updateBrightness does to a matrix: the offsets of the three colour
   * rows, cells (0, 4), (1, 4) and (2, 4), all become `(1 - brightness) * 255`
   * (the source calls this value the darkening); nothing else moves.
   */
  function Brightened(m: Matrix, brightness: real): (r: Matrix)
    requires IsMatrix(m)
    ensures IsMatrix(r)
    ensures forall i | 0 <= i < 3 :: r[i][4] == (1.0 - brightness) * 255.0
    ensures forall i, j | 0 <= i < Rows && 0 <= j < Columns && (i >= 3 || j != 4) :: r[i][j] == m[i][j]
  {
    var darkening := (1.0 - brightness) * 255.0;
    SetCell(SetCell(SetCell(m, 0, 4, darkening), 1, 4, darkening), 2, 4, darkening)
  }

  /**
   * Brightness 1 writes a zero offset, brightness 0 an offset of 255, and a
   * brightness in [0, 1] an offset in [0, 255].
   */
  lemma BrightnessOffsets(m: Matrix, b: real)
    requires IsMatrix(m)
    ensures forall i | 0 <= i < 3 :: Brightened(m, 1.0)[i][4] == 0.0
    ensures forall i | 0 <= i < 3 :: Brightened(m, 0.0)[i][4] == 255.0
    ensures 0.0 <= b <= 1.0 ==> forall i | 0 <= i < 3 :: 0.0 <= Brightened(m, b)[i][4] <= 255.0
  {
  }

  /** updateBrightness overwrites, it does not accumulate. */
  lemma BrightnessOverwrites(m: Matrix, a: real, b: real)
    requires IsMatrix(m)
    ensures Brightened(Brightened(m, a), b) == Brightened(m, b)
  {
    SameCells(Brightened(Brightened(m, a), b), Brightened(m, b));
  }

  // ---------------------------------------------------------------------
  // Alpha: cell (3, 3)
  // ---------------------------------------------------------------------

  /** What updateAlpha does to a matrix: exactly cell (3, 3) becomes `alpha`. */
  function WithAlpha(m: Matrix, alpha: real): (r: Matrix)
    requires IsMatrix(m)
    ensures IsMatrix(r)
    ensures r[3][3] == alpha
    ensures forall i, j | 0 <= i < Rows && 0 <= j < Columns && (i, j) != (3, 3) :: r[i][j] == m[i][j]
  {
    SetCell(m, 3, 3, alpha)
  }

  /** updateAlpha overwrites, it does not accumulate. */
  lemma AlphaOverwrites(m: Matrix, a: real, b: real)
    requires IsMatrix(m)
    ensures WithAlpha(WithAlpha(m, a), b) == WithAlpha(m, b)
  {
    SameCells(WithAlpha(WithAlpha(m, a), b), WithAlpha(m, b));
  }

  /**
   * The three updaters write disjoint sets of cells, so the order in which
   * a frame applies them does not matter.
   */
  lemma UpdatesCommute(m: Matrix, s: real, b: real, a: real)
    requires IsMatrix(m)
    ensures Brightened(Saturated(m, s), b) == Saturated(Brightened(m, b), s)
    ensures WithAlpha(Saturated(m, s), a) == Saturated(WithAlpha(m, a), s)
    ensures WithAlpha(Brightened(m, b), a) == Brightened(WithAlpha(m, a), b)
  {
    SameCells(Brightened(Saturated(m, s), b), Saturated(Brightened(m, b), s));
    SameCells(WithAlpha(Saturated(m, s), a), Saturated(WithAlpha(m, a), s));
    SameCells(WithAlpha(Brightened(m, b), a), Brightened(WithAlpha(m, a), b));
  }

  // ---------------------------------------------------------------------
  // The matrix object the source updates in place
  // ---------------------------------------------------------------------

  /** A colour matrix whose cells live in a 4 x 5 array and are updated in place. */
  class ColorMatrix {
    const values: array2<real>

    ghost predicate Valid() {
      values.Length0 == Rows && values.Length1 == Columns
    }

    ghost function Row(i: nat): (r: seq<real>)
      requires Valid() && i < Rows
      reads values
      ensures |r| == Columns
    {
      [values[i, 0], values[i, 1], values[i, 2], values[i, 3], values[i, 4]]
    }

    /** The current cells as a `Matrix` value. */
    ghost function Cells(): (m: Matrix)
      requires Valid()
      reads values
      ensures IsMatrix(m)
    {
      [Row(0), Row(1), Row(2), Row(3)]
    }

    /** Cell (i, j) of `Cells()` is the array's element (i, j). */
    lemma CellsAreValues()
      requires Valid()
      ensures forall i, j | 0 <= i < Rows && 0 <= j < Columns :: Cells()[i][j] == values[i, j]
    {
    }

    /** A matrix holding the cells of `m`, supplied already initialised by the caller. */
    constructor (m: Matrix)
      requires IsMatrix(m)
      ensures Valid() && fresh(values)
      ensures Cells() == m
    {
      values := new real[Rows, Columns]((i, j) requires 0 <= i < Rows && 0 <= j < Columns => m[i][j]);
      new;
      CellsAreValues();
      SameCells(Cells(), m);
    }

    /** ColorMatrix.set(row, column, v), the `this[row, column] = v` of the updaters. */
    method Set(row: nat, column: nat, v: real)
      requires Valid() && row < Rows && column < Columns
      modifies values
      ensures Valid()
      ensures Cells() == SetCell(old(Cells()), row, column, v)
    {
      ghost var before := Cells();
      CellsAreValues();
      values[row, column] := v;
      CellsAreValues();
      SameCells(Cells(), SetCell(before, row, column, v));
    }

    /** ColorMatrix.updateSaturation: overwrites the nine cells of the RGB block. */
    method UpdateSaturation(saturation: real)
      requires Valid()
      modifies values
      ensures Valid()
      ensures Cells() == Saturated(old(Cells()), saturation)
      ensures forall i, j | 0 <= i < 3 && 0 <= j < 3 :: values[i, j] == SaturationEntry(saturation, i, j)
      ensures forall i, j | 0 <= i < Rows && 0 <= j < Columns && (i >= 3 || j >= 3) :: values[i, j] == old(values[i, j])
    {
      CellsAreValues();
      var invSat := 1.0 - saturation;
      var red := 0.213 * invSat;
      var green := 0.715 * invSat;
      var blue := 0.072 * invSat;
      Set(0, 0, red + saturation);
      Set(0, 1, green);
      Set(0, 2, blue);
      Set(1, 0, red);
      Set(1, 1, green + saturation);
      Set(1, 2, blue);
      Set(2, 0, red);
      Set(2, 1, green);
      Set(2, 2, blue + saturation);
      CellsAreValues();
    }

    /** ColorMatrix.updateBrightness: overwrites the offsets of the three colour rows. */
    method UpdateBrightness(brightness: real)
      requires Valid()
      modifies values
      ensures Valid()
      ensures Cells() == Brightened(old(Cells()), brightness)
      ensures forall i | 0 <= i < 3 :: values[i, 4] == (1.0 - brightness) * 255.0
      ensures forall i, j | 0 <= i < Rows && 0 <= j < Columns && (i >= 3 || j != 4) :: values[i, j] == old(values[i, j])
    {
      CellsAreValues();
      var darkening := (1.0 - brightness) * 255.0;
      Set(0, 4, darkening);
      Set(1, 4, darkening);
      Set(2, 4, darkening);
      CellsAreValues();
    }

    /** ColorMatrix.updateAlpha: overwrites the alpha scale, cell (3, 3). */
    method UpdateAlpha(alpha: real)
      requires Valid()
      modifies values
      ensures Valid()
      ensures Cells() == WithAlpha(old(Cells()), alpha)
      ensures values[3, 3] == alpha
      ensures forall i, j | 0 <= i < Rows && 0 <= j < Columns && (i, j) != (3, 3) :: values[i, j] == old(values[i, j])
    {
      CellsAreValues();
      Set(3, 3, alpha);
      CellsAreValues();
    }
  }
}
