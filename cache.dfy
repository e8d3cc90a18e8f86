/**
 * The glyph atlas: one single-channel texture into which the layout engine's
 * rasterised glyph bitmaps are copied at the rectangles it chooses. A patch
 * arrives tightly packed (`width` bytes per row); before the copy it is
 * repacked into a zero-filled staging buffer whose rows start at a fixed
 * stride that is a multiple of 256 bytes.
 *
 * The stride is modelled as the original computes it: from the patch HEIGHT.
 * With that stride a patch wider than the stride makes the row copy go out of
 * range, which the model exposes as `Panicked`. `StageIntended` is the
 * variant with the stride computed from the width.
 */
module AtlasCache {
  import opened Gpu

  /** `multiple_of_256`: the least multiple of 256 that is at least `value`. */
  function MultipleOf256(value: nat): (r: nat)
    ensures r % 256 == 0
    ensures value <= r < value + 256
  {
    if value % 256 == 0 then value else (value / 256 + 1) * 256
  }

  /** No smaller multiple of 256 covers `value`. */
  lemma {:induction false} MultipleOf256Least(value: nat, m: nat)
    requires m % 256 == 0 && value <= m
    ensures MultipleOf256(value) <= m
  {
  }

  /** A multiple of 256 is returned unchanged, so rounding twice is rounding once. */
  lemma MultipleOf256Idempotent(value: nat)
    ensures value % 256 == 0 ==> MultipleOf256(value) == value
    ensures MultipleOf256(MultipleOf256(value)) == MultipleOf256(value)
  {
  }

  /** The row stride of the staging buffer, derived (as in the original) from the height. */
  function Stride(size: (u16, u16)): (r: nat)
    ensures r % 256 == 0
    ensures size.1 as nat <= r < size.1 as nat + 256
  {
    MultipleOf256(size.1 as nat)
  }

  function Zeros(n: nat): (z: seq<bv8>)
    ensures |z| == n
    ensures forall i :: 0 <= i < n ==> z[i] == 0
  {
    seq(n, _ => 0)
  }

  lemma MulMonotonic(a: nat, b: nat, c: nat)
    requires a <= b
    ensures a * c <= b * c
  {
    var d: nat := b - a;
    assert b * c == a * c + d * c;
  }

  lemma MulSucc(a: nat, b: nat)
    ensures (a + 1) * b == a * b + b
  {
  }

  /**
   * The first `rows` rows of a tightly packed bitmap, each followed by zero
   * padding up to `stride` bytes.
   */
  function PaddedRows(data: seq<bv8>, width: nat, stride: nat, rows: nat): (r: seq<bv8>)
    requires rows == 0 || width <= stride
    requires rows * width <= |data|
    ensures |r| == rows * stride
    decreases rows
  {
    if rows == 0 then []
    else
      MulMonotonic(rows - 1, rows, width);
      PaddedRows(data, width, stride, rows - 1)
        + data[(rows - 1) * width .. rows * width] + Zeros(stride - width)
  }

  /** The first `k` padded rows are a prefix of the first `rows`. */
  lemma {:induction false} PaddedRowsPrefix(data: seq<bv8>, width: nat, stride: nat, rows: nat, k: nat)
    requires width <= stride && rows * width <= |data| && k <= rows
    ensures k * width <= |data| && k * stride <= rows * stride
    ensures PaddedRows(data, width, stride, rows)[..k * stride] == PaddedRows(data, width, stride, k)
    decreases rows
  {
    MulMonotonic(k, rows, width);
    MulMonotonic(k, rows, stride);
    if k < rows {
      MulMonotonic(k, rows - 1, stride);
      MulMonotonic(rows - 1, rows, width);
      var prefix := PaddedRows(data, width, stride, rows - 1);
      var tail := data[(rows - 1) * width .. rows * width] + Zeros(stride - width);
      assert PaddedRows(data, width, stride, rows) == prefix + tail;
      PaddedRowsPrefix(data, width, stride, rows - 1, k);
      assert (prefix + tail)[..k * stride] == prefix[..k * stride];
    }
  }

  /** Byte `j` of padded row `r` is byte `j` of source row `r`, or zero past the width. */
  lemma PaddedRowAt(data: seq<bv8>, width: nat, stride: nat, rows: nat, r: nat, j: nat)
    requires width <= stride && rows * width <= |data|
    requires r < rows && j < stride
    ensures r * stride + j < rows * stride
    ensures j < width ==> r * width + j < |data|
    ensures PaddedRows(data, width, stride, rows)[r * stride + j]
            == if j < width then data[r * width + j] else 0
  {
    MulSucc(r, stride);
    MulSucc(r, width);
    PaddedRowsPrefix(data, width, stride, rows, r + 1);
    var prefix := PaddedRows(data, width, stride, r);
    var tail := data[r * width .. (r + 1) * width] + Zeros(stride - width);
    assert PaddedRows(data, width, stride, r + 1) == prefix + tail;
    var whole := PaddedRows(data, width, stride, rows);
    assert whole[r * stride + j] == whole[..(r + 1) * stride][r * stride + j];
  }

  /**
   * When the row copy panics: for some row a slice of the staging vector or
   * of the source data is out of range.
   */
  predicate RowCopyPanics(width: nat, stride: nat, height: nat, dataLength: nat)
  {
    height > 0 && (width > stride || dataLength < height * width)
  }

  datatype Staging = Panicked | Staged(bytes: seq<bv8>)

  /** The padded staging vector built row by row, or the panic. */
  function Repacked(data: seq<bv8>, width: nat, stride: nat, height: nat): (s: Staging)
    ensures s.Panicked? <==> RowCopyPanics(width, stride, height, |data|)
    ensures s.Staged? ==> |s.bytes| == height * stride
  {
    if RowCopyPanics(width, stride, height, |data|) then Panicked
    else Staged(PaddedRows(data, width, stride, height))
  }

  /** When the original's `Cache::update` panics. */
  predicate StagePanics(size: (u16, u16), dataLength: nat)
  {
    var width, height, stride := size.0 as nat, size.1 as nat, Stride(size);
    width != stride && RowCopyPanics(width, stride, height, dataLength)
  }

  /** The staging buffer the original uploads for a patch, or the panic. */
  function StageSpec(size: (u16, u16), data: seq<bv8>): (s: Staging)
    ensures size.0 as nat == Stride(size) ==> s == Staged(data)
    ensures s.Staged? && size.0 as nat != Stride(size) ==> |s.bytes| == size.1 as nat * Stride(size)
  {
    var width, height, stride := size.0 as nat, size.1 as nat, Stride(size);
    if width == stride then Staged(data)
    else Repacked(data, width, stride, height)
  }

  /** The row-copy loop panics exactly under `StagePanics`, and only when repacking. */
  lemma StageSpecPanics(size: (u16, u16), data: seq<bv8>)
    ensures StageSpec(size, data).Panicked? <==> StagePanics(size, |data|)
    ensures size.0 as nat == Stride(size) ==> StageSpec(size, data) == Staged(data)
  {
  }

  /**
   * When it does not panic and the width differs from the stride, the
   * original uploads the source rows each padded with zeros to the stride;
   * `PaddedRowAt` says what that buffer holds.
   */
  lemma StageSpecRepacks(size: (u16, u16), data: seq<bv8>)
    requires !StagePanics(size, |data|) && size.0 as nat != Stride(size)
    ensures size.1 > 0 ==> size.0 as nat <= Stride(size)
    ensures StageSpec(size, data)
            == Staged(PaddedRows(data, size.0 as nat, Stride(size), size.1 as nat))
  {
  }

  /** For a patch with exactly `width * height` bytes, the original panics iff it is wider than the stride. */
  lemma StageSpecPanicsOnWidePatch(size: (u16, u16), data: seq<bv8>)
    requires |data| == (size.0 as nat) * (size.1 as nat) && size.1 > 0
    ensures StageSpec(size, data).Panicked? <==> size.0 as nat > Stride(size)
  {
  }

  /** The row copy goes out of range at some row exactly when `RowCopyPanics` holds. */
  lemma {:induction false} PanicCondition(width: nat, stride: nat, height: nat, dataLength: nat,
                                          row: nat, offset: nat, start: nat)
    requires offset == row * stride && start == row * width
    requires row < height && width != stride
    requires offset + width > height * stride || start + width > dataLength
    ensures RowCopyPanics(width, stride, height, dataLength)
  {
    MulSucc(row, stride);
    MulSucc(row, width);
    MulMonotonic(row + 1, height, stride);
    MulMonotonic(row + 1, height, width);
  }

  /** Writing `d` over the start of an all-zero tail. */
  lemma WriteRow(before: seq<bv8>, after: seq<bv8>, p: seq<bv8>, d: seq<bv8>, pad: nat, rest: nat)
    requires before == p + Zeros(|d| + pad + rest)
    requires after == before[..|p|] + d + before[|p| + |d|..]
    ensures after == p + d + Zeros(pad) + Zeros(rest)
  {
    assert before[..|p|] == p;
    assert before[|p| + |d|..] == Zeros(pad) + Zeros(rest);
  }

  /** Copying source row `row` into the zeroed tail extends the padded prefix by one row. */
  lemma {:induction false} CopyRowStep(before: seq<bv8>, after: seq<bv8>, data: seq<bv8>,
                                       width: nat, stride: nat, row: nat, rest: nat)
    requires width <= stride && (row + 1) * width <= |data|
    requires before == PaddedRows(data, width, stride, row) + Zeros(stride + rest)
    requires row * stride + width <= |before|
    requires after == before[..row * stride] + data[row * width .. (row + 1) * width] + before[row * stride + width..]
    ensures after == PaddedRows(data, width, stride, row + 1) + Zeros(rest)
  {
    MulSucc(row, width);
    var prefix := PaddedRows(data, width, stride, row);
    assert |prefix| == row * stride;
    WriteRow(before, after, prefix, data[row * width .. (row + 1) * width], stride - width, rest);
  }

  /**
   * One iteration of the row copy, for the row whose destination slice starts
   * at `offset` and whose source slice starts at `start`, keeps the staging
   * vector equal to the padded rows so far.
   */
  lemma {:induction false} RepackStep(before: seq<bv8>, after: seq<bv8>, data: seq<bv8>,
                                      width: nat, stride: nat, height: nat, row: nat, offset: nat, start: nat)
    requires offset == row * stride && start == row * width
    requires row < height && |before| == height * stride
    requires offset + width <= |before| && start + width <= |data|
    requires width <= stride ==> before == PaddedRows(data, width, stride, row) + Zeros(|before| - offset)
    requires after == before[..offset] + data[start .. start + width] + before[offset + width..]
    ensures offset + stride == (row + 1) * stride && start + width == (row + 1) * width
    ensures offset + stride <= |after|
    ensures width <= stride ==> after == PaddedRows(data, width, stride, row + 1) + Zeros(|after| - (offset + stride))
  {
    MulSucc(row, stride);
    MulSucc(row, width);
    MulMonotonic(row + 1, height, stride);
    if width <= stride {
      CopyRowStep(before, after, data, width, stride, row, |after| - (row + 1) * stride);
    }
  }

  /** `copy_from_slice`: overwrite `width` bytes of `dest` at `at` with those of `source` at `from`. */
  method CopyFromSlice(dest: array<bv8>, at: nat, source: seq<bv8>, from: nat, width: nat)
    requires at + width <= dest.Length && from + width <= |source|
    modifies dest
    ensures dest[..] == old(dest[..])[..at] + source[from .. from + width] + old(dest[..])[at + width..]
  {
    ghost var before := dest[..];
    forall j | 0 <= j < width {
      dest[at + j] := source[from + j];
    }
    ghost var expected := before[..at] + source[from .. from + width] + before[at + width..];
    assert forall k :: 0 <= k < dest.Length ==> dest[k] == expected[k];
  }

  /**
   * What the row copy has built after `row` rows: every row so far fitted
   * and, when rows do not overlap, the vector holds the padded rows so far
   * followed by the untouched zeros.
   */
  ghost predicate RowsCopied(padded: seq<bv8>, data: seq<bv8>, width: nat, stride: nat, height: nat, row: nat)
  {
    && row <= height && |padded| == height * stride
    && row * stride <= |padded|
    && (row > 0 ==> width <= |padded| - row * stride + stride && row * width <= |data|)
    && (width <= stride ==>
         && row * width <= |data|
         && padded == PaddedRows(data, width, stride, row) + Zeros(|padded| - row * stride))
  }

  /** Before the first row the vector is all zeros. */
  lemma RowsCopiedFirst(data: seq<bv8>, width: nat, stride: nat, height: nat)
    ensures RowsCopied(Zeros(stride * height), data, width, stride, height, 0)
  {
    assert PaddedRows(data, width, stride, 0) + Zeros(stride * height) == Zeros(stride * height);
  }

  /** After the last row the vector is the repacked patch. */
  lemma RowsCopiedLast(padded: seq<bv8>, data: seq<bv8>, width: nat, stride: nat, height: nat)
    requires RowsCopied(padded, data, width, stride, height, height)
    ensures Repacked(data, width, stride, height) == Staged(padded)
  {
    if height > 0 {
      assert width <= stride;
    }
    assert padded == PaddedRows(data, width, stride, height) + Zeros(0);
  }

  /**
   * One pass of the row loop: copy source row `row` into padded row `row`
   * and give the next row, or report that one of the two slices is out of
   * range.
   */
  method CopyPaddedRow(padded: array<bv8>, data: seq<bv8>, width: nat, stride: nat, height: nat, row: nat)
    returns (fits: bool, next: nat)
    requires width != stride && row < height
    requires RowsCopied(padded[..], data, width, stride, height, row)
    modifies padded
    ensures next == row + 1
    ensures !fits ==> RowCopyPanics(width, stride, height, |data|)
    ensures fits ==> RowsCopied(padded[..], data, width, stride, height, next)
  {
    next := row + 1;
    var offset: nat, start: nat := row * stride, row * width;
    if offset + width > padded.Length || start + width > |data| {
      PanicCondition(width, stride, height, |data|, row, offset, start);
      return false, next;
    }
    ghost var before := padded[..];
    CopyFromSlice(padded, offset, data, start, width);
    RepackStep(before, padded[..], data, width, stride, height, row, offset, start);
    fits := true;
  }

  /**
   * The branch of `Cache::update` that pads: allocate a zero-filled vector of
   * `stride * height` bytes and copy each source row to the start of its
   * padded row, panicking when a slice is out of range.
   */
  method RepackRows(data: seq<bv8>, width: nat, stride: nat, height: nat) returns (s: Staging)
    requires width != stride
    ensures s == Repacked(data, width, stride, height)
  {
    var padded := new bv8[stride * height](_ => 0);
    assert padded[..] == Zeros(stride * height);
    RowsCopiedFirst(data, width, stride, height);
    var row: nat := 0;
    while row < height
      invariant RowsCopied(padded[..], data, width, stride, height, row)
    {
      var fits;
      fits, row := CopyPaddedRow(padded, data, width, stride, height, row);
      if !fits {
        return Panicked;
      }
    }
    RowsCopiedLast(padded[..], data, width, stride, height);
    s := Staged(padded[..]);
  }

  /**
   * The staging of `Cache::update`: a patch whose width already equals the
   * stride is uploaded as it is, any other is repacked.
   */
  method StagePatch(size: (u16, u16), data: seq<bv8>) returns (s: Staging)
    ensures s == StageSpec(size, data)
  {
    var width := size.0 as nat;
    var height := size.1 as nat;
    var stride := MultipleOf256(height);
    if width == stride {
      return Staged(data);
    }
    s := RepackRows(data, width, stride, height);
  }

  /** A texture that atlas patches are copied into, and the view the bind group samples. */
  class Cache {
    const texture: Texture
    const view: TextureView

    /** `Cache::new`: a new texture of the given dimensions and its default view. */
    constructor (width: nat, height: nat)
      ensures fresh(texture) && fresh(view)
      ensures texture.width == width && texture.height == height
      ensures view.texture == texture
    {
      var t := new Texture(width, height);
      texture := t;
      view := new TextureView(t);
    }

    /**
     * `Cache::update`: stage the patch and record one copy into this cache's
     * texture at `offset`, `size[0]` by `size[1]` texels, with the staging
     * stride as bytes per row and `size[1]` rows per image.
     */
    method Update(encoder: Encoder, offset: (u16, u16), size: (u16, u16), data: seq<bv8>)
      requires !StagePanics(size, |data|)
      modifies encoder
      ensures encoder.commands == old(encoder.commands) + [CopyBufferToTexture(
        BufferCopy(StageSpec(size, data).bytes, 0, Stride(size), size.1 as nat),
        texture,
        Origin3d(offset.0 as nat, offset.1 as nat, 0),
        Extent3d(size.0 as nat, size.1 as nat, 1))]
    {
      var staging := StagePatch(size, data);
      var adjustedWidth := MultipleOf256(size.1 as nat);
      encoder.commands := encoder.commands + [CopyBufferToTexture(
        BufferCopy(staging.bytes, 0, adjustedWidth, size.1 as nat),
        texture,
        Origin3d(offset.0 as nat, offset.1 as nat, 0),
        Extent3d(size.0 as nat, size.1 as nat, 1))];
    }
  }

  /** The stride the row alignment calls for: the WIDTH rounded up to a multiple of 256. */
  function IntendedStride(size: (u16, u16)): (r: nat)
    ensures size.0 as nat <= r && r % 256 == 0
  {
    MultipleOf256(size.0 as nat)
  }

  /** The staging with the stride derived from the width. */
  function StageIntended(size: (u16, u16), data: seq<bv8>): (s: Staging)
    ensures s.Panicked? ==> |data| < (size.0 as nat) * (size.1 as nat)
  {
    var width, height, stride := size.0 as nat, size.1 as nat, IntendedStride(size);
    if width == stride then Staged(data)
    else if height > 0 && |data| < height * width then Panicked
    else Staged(PaddedRows(data, width, stride, height))
  }

  /**
   * With the stride derived from the width, a patch of `width * height`
   * bytes whose width is not already a multiple of 256 is repacked into
   * padded rows (which `PaddedRowAt` describes).
   */
  lemma StageIntendedRepacks(size: (u16, u16), data: seq<bv8>)
    requires |data| >= (size.1 as nat) * (size.0 as nat)
    requires size.0 as nat != IntendedStride(size)
    ensures StageIntended(size, data)
            == Staged(PaddedRows(data, size.0 as nat, IntendedStride(size), size.1 as nat))
  {
  }

  /**
   * A one-row patch 300 bytes wide: the original's stride is 256, so the copy
   * of the row overruns the 256-byte staging vector; with the stride taken
   * from the width (512) it is staged.
   */
  lemma WidePatchPanics()
    ensures var data := Zeros(300);
      && StageSpec((300, 1), data) == Panicked
      && StageIntended((300, 1), data).Staged?
  {
  }
}
