/** The collision engine: axis-aligned rectangle overlap and sprite-mask
    (pixel) overlap, and the searches for the first and last solid row of a
    sprite. Coordinates are world pixels, kept exact as `real`. */
module Geometry {

  /** A sprite bitmap, one sequence per row; `true` marks a solid (black) pixel. */
  type Mask = seq<seq<bool>>

  /** An axis-aligned rectangle: left edge, top edge, width and height. */
  datatype Box = Box(x: real, y: real, width: real, height: real)

  /** Every row is as long as the first: the shape of every sprite the game draws. */
  ghost predicate Rectangular(m: Mask)
  {
    forall r :: 0 <= r < |m| ==> |m[r]| == |m[0]|
  }

  function Max(a: real, b: real): real { if a >= b then a else b }

  function Min(a: real, b: real): real { if a <= b then a else b }

  /** Cell (row, col) is solid. Rows are bounded by the row count, columns by
      the length of the first row; a cell past the end of a shorter row reads
      as undefined in the game, which is not solid. */
  predicate Cell(m: Mask, row: int, col: int)
  {
    0 <= row < |m| && 0 <= col < |m[0]| && col < |m[row]| && m[row][col]
  }

  lemma ProductBound(v: real, s: int, n: int)
    requires s >= 1
    requires (v / s as real).Floor < n
    ensures v < (s * n) as real
  {
    var q := v / s as real;
    assert v == q * s as real;
    assert q < n as real;
    assert q * s as real < n as real * s as real;
  }

  lemma ProductNonNegative(v: real, s: int)
    requires s >= 1
    requires 0 <= (v / s as real).Floor
    ensures 0.0 <= v
  {
    var q := v / s as real;
    assert v == q * s as real;
    assert 0.0 <= q;
  }

  /** The pixel at local offset (px, py) of a sprite drawn at `scale` screen
      pixels per cell is solid. Offsets outside the drawn sprite are never
      solid. */
  function IsPixelSolid(m: Mask, px: real, py: real, scale: int): (solid: bool)
    requires scale >= 1
    ensures solid ==> |m| > 0 && 0.0 <= px < (scale * |m[0]|) as real
    ensures solid ==> 0.0 <= py < (scale * |m|) as real
    ensures solid <==> Cell(m, (py / scale as real).Floor, (px / scale as real).Floor)
  {
    var row := (py / scale as real).Floor;
    var col := (px / scale as real).Floor;
    if row < 0 || row >= |m| then false
    else if col < 0 || col >= |m[0]| then false
    else
      ProductBound(px, scale, |m[0]|);
      ProductBound(py, scale, |m|);
      ProductNonNegative(px, scale);
      ProductNonNegative(py, scale);
      col < |m[row]| && m[row][col]
  }

  /** Bounding-box overlap with strict inequalities: boxes that only share an
      edge do not collide. */
  predicate CheckCollision(a: Box, b: Box)
  {
    a.x < b.x + b.width &&
    a.x + a.width > b.x &&
    a.y < b.y + b.height &&
    a.y + a.height > b.y
  }

  lemma CollisionSymmetric(a: Box, b: Box)
    ensures CheckCollision(a, b) == CheckCollision(b, a)
  {
  }

  /** Boxes that touch along a vertical or horizontal edge do not collide. */
  lemma TouchingEdgesDoNotCollide(a: Box, b: Box)
    requires a.x + a.width == b.x || b.x + b.width == a.x ||
             a.y + a.height == b.y || b.y + b.height == a.y
    ensures !CheckCollision(a, b)
  {
  }

  /** For boxes of positive size, collision is exactly a non-empty overlap
      rectangle. */
  lemma CollisionIsNonEmptyOverlap(a: Box, b: Box)
    requires a.width > 0.0 && a.height > 0.0 && b.width > 0.0 && b.height > 0.0
    ensures CheckCollision(a, b) <==>
      Max(a.x, b.x) < Min(a.x + a.width, b.x + b.width) &&
      Max(a.y, b.y) < Min(a.y + a.height, b.y + b.height)
  {
  }

  /** Sample (i, j) of the overlap of two boxes: the world point two pixels per
      step right of and below the overlap's top-left corner, still inside the
      overlap, where both sprites are solid. */
  predicate SampleHit(a: Box, ma: Mask, sa: int, b: Box, mb: Mask, sb: int, i: int, j: int)
    requires sa >= 1 && sb >= 1
  {
    var x := Max(a.x, b.x) + 2.0 * i as real;
    var y := Max(a.y, b.y) + 2.0 * j as real;
    x < Min(a.x + a.width, b.x + b.width) &&
    y < Min(a.y + a.height, b.y + b.height) &&
    IsPixelSolid(ma, x - a.x, y - a.y, sa) &&
    IsPixelSolid(mb, x - b.x, y - b.y, sb)
  }

  /** Pixel-accurate collision: the bounding boxes overlap and, sampling the
      overlap every two pixels in each direction, some sample is solid in both
      sprites. Each sprite has its own scale. */
  method CheckPixelCollision(a: Box, ma: Mask, b: Box, mb: Mask, sa: int, sb: int)
    returns (hit: bool)
    requires sa >= 1 && sb >= 1
    ensures hit <==> CheckCollision(a, b) &&
                     exists i: nat, j: nat :: SampleHit(a, ma, sa, b, mb, sb, i, j)
    ensures hit ==> CheckCollision(a, b)
  {
    if a.x >= b.x + b.width || a.x + a.width <= b.x ||
       a.y >= b.y + b.height || a.y + a.height <= b.y {
      return false;
    }
    var left := Max(a.x, b.x);
    var right := Min(a.x + a.width, b.x + b.width);
    var top := Max(a.y, b.y);
    var bottom := Min(a.y + a.height, b.y + b.height);
    var j := 0;
    while top + 2.0 * j as real < bottom
      invariant 0 <= j
      invariant forall j', i' :: 0 <= j' < j && 0 <= i' ==> !SampleHit(a, ma, sa, b, mb, sb, i', j')
      decreases (bottom - top).Floor - 2 * j
    {
      var y := top + 2.0 * j as real;
      var i := 0;
      while left + 2.0 * i as real < right
        invariant 0 <= i
        invariant forall i' :: 0 <= i' < i ==> !SampleHit(a, ma, sa, b, mb, sb, i', j)
        decreases (right - left).Floor - 2 * i
      {
        var x := left + 2.0 * i as real;
        if IsPixelSolid(ma, x - a.x, y - a.y, sa) && IsPixelSolid(mb, x - b.x, y - b.y, sb) {
          assert SampleHit(a, ma, sa, b, mb, sb, i, j);
          return true;
        }
        i := i + 1;
      }
      j := j + 1;
    }
    return false;
  }

  /** Some cell of the row is solid. */
  ghost predicate RowSolid(m: Mask, row: int)
  {
    exists col :: Cell(m, row, col)
  }

  /** Scans a row left to right for a solid cell. */
  method ScanRow(m: Mask, row: int) returns (found: bool)
    requires 0 <= row < |m|
    ensures found <==> RowSolid(m, row)
  {
    var col := 0;
    while col < |m[0]|
      invariant 0 <= col <= |m[0]|
      invariant forall c :: 0 <= c < col ==> !Cell(m, row, c)
    {
      if col < |m[row]| && m[row][col] {
        assert Cell(m, row, col);
        return true;
      }
      col := col + 1;
    }
    return false;
  }

  lemma RowProductPositive(row: int, scale: int)
    requires 0 <= row && scale >= 1
    ensures (row + 1) * scale >= 1 && row * scale >= 0
  {
    assert (row + 1) * scale == row * scale + scale;
  }

  /** Bottom edge, in screen pixels, of the lowest solid row of a sprite drawn
      at `scale`, or 0 when the sprite has no solid cell. */
  method GetLowestSolidPixelY(m: Mask, scale: int) returns (y: int)
    requires scale >= 1
    ensures y == 0 <==> forall row :: !RowSolid(m, row)
    ensures y != 0 ==> exists row :: 0 <= row < |m| && RowSolid(m, row) && y == (row + 1) * scale &&
                                     forall below :: row < below ==> !RowSolid(m, below)
  {
    var row := |m| - 1;
    while row >= 0
      invariant -1 <= row < |m|
      invariant forall below :: row < below ==> !RowSolid(m, below)
    {
      var found := ScanRow(m, row);
      if found {
        RowProductPositive(row, scale);
        return (row + 1) * scale;
      }
      row := row - 1;
    }
    return 0;
  }

  /** Top edge, in screen pixels, of the highest solid row of a sprite drawn at
      `scale`, or 0 when the sprite has no solid cell (so a solid top row and
      an empty sprite both give 0). */
  method GetHighestSolidPixelY(m: Mask, scale: int) returns (y: int)
    requires scale >= 1
    ensures (forall row :: !RowSolid(m, row)) ==> y == 0
    ensures (exists row :: RowSolid(m, row)) ==>
      exists row :: 0 <= row < |m| && RowSolid(m, row) && y == row * scale &&
                    forall above :: above < row ==> !RowSolid(m, above)
  {
    var row := 0;
    while row < |m|
      invariant 0 <= row <= |m|
      invariant forall above :: above < row ==> !RowSolid(m, above)
    {
      var found := ScanRow(m, row);
      if found {
        return row * scale;
      }
      row := row + 1;
    }
    return 0;
  }
}
