// Frame sizes and the in-place crop of src/moonlight/vita_video_renderer.c. Pixels are
// whole elements; the source moves their four bytes.
module VideoGeometry {

  const SCREEN_WIDTH := 960
  const SCREEN_HEIGHT := 544
  const WORD := 0x1_0000_0000
  const SHORT := 0x1_0000
  const ALIGNMENT := 0x4_0000       // 256 KiB

  datatype Size = Size(width: nat, height: nat)

  // align_decoder_resolution: up to a multiple of 16, then cut to 32 bits
  function Align(value: nat): nat {
    (value + 15) / 16 * 16 % WORD
  }

  // divide_round_up
  function DivideRoundUp(numerator: nat, denominator: nat): nat {
    if denominator == 0 then 0 else (numerator + denominator - 1) / denominator
  }

  // vita_video_calculate_output_size
  function OutputSize(width: nat, height: nat, center: bool): Size {
    if width == 0 || height == 0 || SCREEN_WIDTH * height == SCREEN_HEIGHT * width
    then Size(SCREEN_WIDTH, SCREEN_HEIGHT)
    else if (if center then SCREEN_WIDTH * height > SCREEN_HEIGHT * width
             else SCREEN_WIDTH * height < SCREEN_HEIGHT * width)
    then Size(SCREEN_WIDTH, Align(DivideRoundUp(SCREEN_WIDTH * height, width)))
    else Size(Align(DivideRoundUp(SCREEN_HEIGHT * width, height)), SCREEN_HEIGHT)
  }

  lemma Quotient(n: nat, d: nat, q: nat)
    requires d > 0 && q == DivideRoundUp(n, d)
    ensures n <= q * d < n + d
  {
    assert (n + d - 1) == q * d + (n + d - 1) % d;
  }

  lemma ProductOrder(a: nat, b: nat, d: nat)
    requires d > 0
    ensures a * d < b * d ==> a < b
    ensures a <= b ==> a * d <= b * d
  {
    if a <= b {
      assert b * d == a * d + (b - a) * d;
    } else {
      assert a * d == b * d + (a - b) * d;
    }
  }

  // A side `r` that was scaled by n / d: the least multiple of 16 that is not too small.
  ghost predicate Scaled(r: nat, n: nat, d: nat) {
    r % 16 == 0 && r > 0 && n <= r * d && (r - 16) * d < n
  }

  lemma AlignBounds(q: nat)
    requires q + 15 < WORD
    ensures q <= Align(q) < q + 16 && Align(q) % 16 == 0
  {
    var r := (q + 15) / 16 * 16;
    assert q <= r < q + 16 && r < WORD;
  }

  lemma ScaledFrom(n: nat, d: nat, q: nat, r: nat)
    requires 0 < d && 0 < n && n <= q * d < n + d
    requires q <= r < q + 16 && r % 16 == 0
    ensures Scaled(r, n, d)
  {
    assert q > 0;
    ProductOrder(q, r, d);
    ProductOrder(r - 16, q - 1, d);
    assert (q - 1) * d == q * d - d;
  }

  lemma AlignScaled(n: nat, d: nat)
    requires 0 < d && 0 < n && DivideRoundUp(n, d) + 15 < WORD
    ensures Scaled(Align(DivideRoundUp(n, d)), n, d)
  {
    var q := DivideRoundUp(n, d);
    Quotient(n, d, q);
    AlignBounds(q);
    ScaledFrom(n, d, q, Align(q));
  }

  // A side that must not exceed a multiple of 16 does not after scaling.
  lemma ScaledAtMost(r: nat, n: nat, d: nat, limit: nat)
    requires Scaled(r, n, d) && d > 0 && limit % 16 == 0 && n < limit * d
    ensures r <= limit
  {
    ProductOrder(r - 16, limit, d);
  }

  lemma ScaledAtLeast(r: nat, n: nat, d: nat, limit: nat)
    requires Scaled(r, n, d) && d > 0 && limit * d < n
    ensures r > limit
  {
    ProductOrder(limit, r, d);
  }

  lemma FactorBound(q: nat, n: nat, d: nat)
    requires d > 0 && q * d < n + d
    ensures q <= n
  {
    if q > 0 {
      var p, e := q - 1, d - 1;
      assert q * d == p * d + d;
      assert p * d == p + p * e;
      assert p * e >= 0;
    }
  }

  lemma QuotientBound(n: nat, d: nat)
    requires d > 0
    ensures DivideRoundUp(n, d) <= n
  {
    var q := DivideRoundUp(n, d);
    Quotient(n, d, q);
    FactorBound(q, n, d);
  }

  // The scaled side of a frame
  lemma SideIsScaled(screen: nat, other: nat, side: nat)
    requires 0 < other < SHORT && 0 < side < SHORT && 0 < screen <= SCREEN_WIDTH
    ensures Scaled(Align(DivideRoundUp(screen * other, side)), screen * other, side)
  {
    ProductOrder(screen, SCREEN_WIDTH, other);
    assert 0 < screen * other <= SCREEN_WIDTH * SHORT;
    QuotientBound(screen * other, side);
    AlignScaled(screen * other, side);
  }

  // The whole frame fits the screen, and touches two of its edges: a frame that is wider
  // in shape than the screen gets the screen's width, and a height that is scaled alike.
  lemma FitInside(width: nat, height: nat)
    requires 0 < width < SHORT && 0 < height < SHORT
    ensures var s := OutputSize(width, height, false);
      && 0 < s.width <= SCREEN_WIDTH && 0 < s.height <= SCREEN_HEIGHT
      && s.width % 16 == 0 && s.height % 16 == 0
      && (960 * height < 544 * width ==> s.width == 960 && Scaled(s.height, 960 * height, width))
      && (960 * height > 544 * width ==> s.height == 544 && Scaled(s.width, 544 * width, height))
      && (960 * height == 544 * width ==> s == Size(960, 544))
  {
    if SCREEN_WIDTH * height < SCREEN_HEIGHT * width {
      SideIsScaled(SCREEN_WIDTH, height, width);
      ScaledAtMost(OutputSize(width, height, false).height, SCREEN_WIDTH * height, width, SCREEN_HEIGHT);
    } else if SCREEN_WIDTH * height > SCREEN_HEIGHT * width {
      SideIsScaled(SCREEN_HEIGHT, width, height);
      ScaledAtMost(OutputSize(width, height, false).width, SCREEN_HEIGHT * width, height, SCREEN_WIDTH);
    }
  }

  // The frame covers the screen, and is larger in at most one dimension.
  ghost predicate Covers(s: Size) {
    && s.width >= SCREEN_WIDTH && s.height >= SCREEN_HEIGHT
    && s.width % 16 == 0 && s.height % 16 == 0
    && (s.width == SCREEN_WIDTH || s.height == SCREEN_HEIGHT)
  }

  // The frame's sides are scaled alike; the one that would be too short is the screen's.
  lemma CoverContains(width: nat, height: nat)
    requires 0 < width < SHORT && 0 < height < SHORT
    ensures var s := OutputSize(width, height, true);
      && Covers(s)
      && (960 * height > 544 * width ==> s.width == 960 && Scaled(s.height, 960 * height, width))
      && (960 * height < 544 * width ==> s.height == 544 && Scaled(s.width, 544 * width, height))
      && (960 * height == 544 * width ==> s == Size(960, 544))
  {
    if SCREEN_WIDTH * height > SCREEN_HEIGHT * width {
      SideIsScaled(SCREEN_WIDTH, height, width);
      ScaledAtLeast(OutputSize(width, height, true).height, SCREEN_WIDTH * height, width, SCREEN_HEIGHT);
    } else if SCREEN_WIDTH * height < SCREEN_HEIGHT * width {
      SideIsScaled(SCREEN_HEIGHT, width, height);
      ScaledAtLeast(OutputSize(width, height, true).width, SCREEN_HEIGHT * width, height, SCREEN_WIDTH);
    }
  }

  /* ---------- The crop ---------- */

  // The margins left of and above the window, as many as right of and below it
  function MarginX(s: Size): nat
    requires s.width >= SCREEN_WIDTH
  {
    (s.width - SCREEN_WIDTH) / 2
  }

  function MarginY(s: Size): nat
    requires s.height >= SCREEN_HEIGHT
  {
    (s.height - SCREEN_HEIGHT) / 2
  }

  lemma Centred(s: Size)
    requires Covers(s)
    ensures MarginX(s) + SCREEN_WIDTH + MarginX(s) == s.width
    ensures MarginY(s) + SCREEN_HEIGHT + MarginY(s) == s.height
  {
    Halves(s.width - SCREEN_WIDTH);
    Halves(s.height - SCREEN_HEIGHT);
  }

  lemma Halves(n: nat)
    requires n % 16 == 0
    ensures n / 2 + n / 2 == n
  {
    var k := n / 16;
    assert n == 16 * k;
    assert n % 2 == 0;
  }

  // Where row `row` of the window starts in the frame
  function SourceRow(s: Size, row: nat): nat
    requires s.width >= SCREEN_WIDTH && s.height >= SCREEN_HEIGHT
  {
    (row + MarginY(s)) * s.width + MarginX(s)
  }

  lemma WiderRows(y: nat, width: nat)
    requires width >= SCREEN_WIDTH
    ensures y * SCREEN_WIDTH <= y * width
  {
    assert y * width == y * SCREEN_WIDTH + y * (width - SCREEN_WIDTH);
  }

  lemma Distribute(a: nat, b: nat, c: nat)
    ensures a * (b + c) == a * b + a * c
  {
  }

  lemma RowFits(y: nat, width: nat, height: nat)
    requires y < height
    ensures y * width + width <= width * height
  {
    var rest := height - y - 1;
    assert height == y + 1 + rest;
    Distribute(width, y + 1, rest);
    Distribute(width, y, 1);
  }

  // A row of the window lies inside the frame, and not before its destination.
  lemma SourceBounds(s: Size, row: nat)
    requires Covers(s) && row < SCREEN_HEIGHT
    ensures row * SCREEN_WIDTH <= SourceRow(s, row)
    ensures SourceRow(s, row) + SCREEN_WIDTH <= s.width * s.height
  {
    WiderRows(row + MarginY(s), s.width);
    RowFits(row + MarginY(s), s.width, s.height);
  }

  lemma ScreenFits(s: Size)
    requires Covers(s)
    ensures SCREEN_HEIGHT * SCREEN_WIDTH <= s.width * s.height
  {
    SourceBounds(s, SCREEN_HEIGHT - 1);
  }

  // The pixels of four bytes that are allocated for a frame, in whole blocks
  function Allocated(s: Size): nat {
    (s.width * s.height * 4 + ALIGNMENT - 1) / ALIGNMENT * ALIGNMENT / 4
  }

  // The allocation is a whole number of blocks that holds the frame, and less
  // than a block more.
  lemma AllocatedHolds(s: Size)
    ensures s.width * s.height <= Allocated(s) < s.width * s.height + ALIGNMENT / 4
    ensures Allocated(s) * 4 % ALIGNMENT == 0
  {
    var bytes := s.width * s.height * 4;
    var blocks := (bytes + ALIGNMENT - 1) / ALIGNMENT;
    assert bytes <= blocks * ALIGNMENT < bytes + ALIGNMENT;
    assert blocks * ALIGNMENT == (blocks * (ALIGNMENT / 4)) * 4;
    assert Allocated(s) * 4 == blocks * ALIGNMENT;
  }

  // The window's row of the frame
  function WindowRow<T>(frame: seq<T>, s: Size, row: nat): seq<T>
    requires Covers(s) && row < SCREEN_HEIGHT && |frame| >= s.width * s.height
  {
    SourceBounds(s, row);
    frame[SourceRow(s, row)..SourceRow(s, row) + SCREEN_WIDTH]
  }

  class Renderer<T> {
    var frameWidth: nat
    var frameHeight: nat
    const centerRegion: bool

    constructor (center: bool)
      ensures centerRegion == center
    {
      frameWidth, frameHeight, centerRegion := 0, 0, center;
    }

    // vita_video_calculate_output_size
    method CalculateOutputSize(width: nat, height: nat)
      modifies this
      ensures Size(frameWidth, frameHeight) == OutputSize(width, height, centerRegion)
      ensures width == 0 || height == 0 ==> frameWidth == 960 && frameHeight == 544
    {
      if width == 0 || height == 0 {
        frameWidth, frameHeight := SCREEN_WIDTH, SCREEN_HEIGHT;
        return;
      }
      var source, screen := SCREEN_WIDTH * height, SCREEN_HEIGHT * width;
      if source == screen {
        frameWidth, frameHeight := SCREEN_WIDTH, SCREEN_HEIGHT;
        return;
      }
      var toWidth := if centerRegion then source > screen else source < screen;
      if toWidth {
        frameWidth := SCREEN_WIDTH;
        frameHeight := Align(DivideRoundUp(SCREEN_WIDTH * height, width));
      } else {
        frameWidth := Align(DivideRoundUp(SCREEN_HEIGHT * width, height));
        frameHeight := SCREEN_HEIGHT;
      }
    }

    // memmove of one row
    method MoveRow(buffer: array<T>, to: nat, from: nat)
      requires to <= from && from + SCREEN_WIDTH <= buffer.Length
      modifies buffer
      ensures buffer[..] == old(buffer[..to] + buffer[from..from + SCREEN_WIDTH] + buffer[to + SCREEN_WIDTH..])
    {
      forall i | 0 <= i < SCREEN_WIDTH {
        buffer[to + i] := buffer[from + i];
      }
    }

    // One row of the crop
    method CropRow(buffer: array<T>, row: nat, cropX: nat, cropY: nat, ghost frame: seq<T>)
      requires Covers(Size(frameWidth, frameHeight)) && |frame| >= frameWidth * frameHeight && row < SCREEN_HEIGHT
      requires cropX == MarginX(Size(frameWidth, frameHeight)) && cropY == MarginY(Size(frameWidth, frameHeight))
      requires RowsDone(buffer[..], frame, Size(frameWidth, frameHeight), row)
      modifies buffer
      ensures RowsDone(buffer[..], frame, Size(frameWidth, frameHeight), row + 1)
    {
      ghost var now, s := buffer[..], Size(frameWidth, frameHeight);
      SourceBounds(s, row);
      var source := (row + cropY) * frameWidth + cropX;
      assert source == SourceRow(s, row);
      MoveRow(buffer, row * SCREEN_WIDTH, source);
      RowMoved(frame, now, buffer[..], s, row);
    }

    // The crop in vita_video_submit: row by row the window comes to the start of the
    // buffer that holds the frame, which may be longer. What is behind the screen stays.
    method Crop(buffer: array<T>)
      requires Covers(Size(frameWidth, frameHeight)) && buffer.Length >= frameWidth * frameHeight
      modifies buffer
      ensures forall r :: 0 <= r < SCREEN_HEIGHT ==>
        RowIs(buffer[..], old(buffer[..]), Size(frameWidth, frameHeight), r)
      ensures buffer[SCREEN_HEIGHT * SCREEN_WIDTH..] == old(buffer[SCREEN_HEIGHT * SCREEN_WIDTH..])
    {
      ScreenFits(Size(frameWidth, frameHeight));
      ghost var was := buffer[..];
      ghost var s := Size(frameWidth, frameHeight);
      var cropX, cropY := (frameWidth - SCREEN_WIDTH) / 2, (frameHeight - SCREEN_HEIGHT) / 2;
      if frameWidth != SCREEN_WIDTH || frameHeight != SCREEN_HEIGHT {
        var row := 0;
        while row < SCREEN_HEIGHT
          invariant 0 <= row <= SCREEN_HEIGHT
          invariant RowsDone(buffer[..], was, s, row)
        {
          CropRow(buffer, row, cropX, cropY, was);
          row := row + 1;
        }
      } else {
        forall r | 0 <= r < SCREEN_HEIGHT
          ensures RowIs(buffer[..], was, s, r)
        {
          SourceBounds(s, r);
          assert SourceRow(s, r) == r * SCREEN_WIDTH;
        }
      }
    }
  }

  // Row `r` of the screen at the start of `buffer` is the window's row of `frame`.
  ghost predicate RowIs<T>(buffer: seq<T>, frame: seq<T>, s: Size, r: nat)
    requires Covers(s) && r < SCREEN_HEIGHT && |frame| >= s.width * s.height
  {
    (r + 1) * SCREEN_WIDTH <= |buffer| && buffer[r * SCREEN_WIDTH..(r + 1) * SCREEN_WIDTH] == WindowRow(frame, s, r)
  }

  // The first rows are done, and the pixels behind them are those of the frame.
  ghost predicate RowsDone<T>(buffer: seq<T>, frame: seq<T>, s: Size, row: nat)
    requires Covers(s) && row <= SCREEN_HEIGHT && |frame| >= s.width * s.height
  {
    && |buffer| == |frame| && row * SCREEN_WIDTH <= |frame|
    && buffer[row * SCREEN_WIDTH..] == frame[row * SCREEN_WIDTH..]
    && (forall r :: 0 <= r < row ==> RowIs(buffer, frame, s, r))
  }

  lemma SliceOfTail<T>(s: seq<T>, to: nat, from: nat, n: nat)
    requires to <= from && from + n <= |s|
    ensures s[from..from + n] == s[to..][from - to..from - to + n]
  {
  }

  // Moving a row completes it and leaves the rows before it and the pixels behind it.
  lemma RowMoved<T>(frame: seq<T>, now: seq<T>, next: seq<T>, s: Size, row: nat)
    requires Covers(s) && row < SCREEN_HEIGHT && |frame| >= s.width * s.height
    requires RowsDone(now, frame, s, row)
    requires var to, from := row * SCREEN_WIDTH, SourceRow(s, row);
      && to <= from && from + SCREEN_WIDTH <= |now|
      && next == now[..to] + now[from..from + SCREEN_WIDTH] + now[to + SCREEN_WIDTH..]
    ensures RowsDone(next, frame, s, row + 1)
  {
    var to, from := row * SCREEN_WIDTH, SourceRow(s, row);
    var end := to + SCREEN_WIDTH;
    assert next[..to] == now[..to] && next[end..] == now[end..];
    assert now[end..] == now[to..][SCREEN_WIDTH..] == frame[end..];
    SliceOfTail(now, to, from, SCREEN_WIDTH);
    SliceOfTail(frame, to, from, SCREEN_WIDTH);
    assert next[to..end] == now[from..from + SCREEN_WIDTH];
    forall r | 0 <= r < row
      ensures RowIs(next, frame, s, r)
    {
      assert RowIs(now, frame, s, r);
      assert next[r * SCREEN_WIDTH..(r + 1) * SCREEN_WIDTH] == next[..to][r * SCREEN_WIDTH..(r + 1) * SCREEN_WIDTH];
      assert now[r * SCREEN_WIDTH..(r + 1) * SCREEN_WIDTH] == now[..to][r * SCREEN_WIDTH..(r + 1) * SCREEN_WIDTH];
    }
  }
}
