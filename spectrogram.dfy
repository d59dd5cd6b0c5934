/** The pure part of the audio spectrum viewer: how a channel is cut into
    overlapping analysis windows, how windows are grouped into batches, where
    each window's column and each frequency bin land on the plot, the
    five-segment dB colour map, and the axis ticks.

    Pixel arithmetic is over exact reals and integers; JavaScript's doubles
    are not modelled. */
module Spectrogram {
  import opened Common

  const FftSize: int := 4096
  const ChunkSize: int := FftSize
  const Overlap: real := 0.5
  /** `Math.floor(chunkSize * (1 - overlap))`; the integer formulas below
      use its value 2048 literally. */
  const HopSize: int := (ChunkSize as real * (1.0 - Overlap)).Floor
  /** Windows per `Promise.all`; products with it are written with the literal 32. */
  const BatchSize: int := 32
  /** Length of every frame the analyser returns: `frequencyBinCount`, half
      the FFT size (section 1.8, AnalyserNode, of the W3C Web Audio API). */
  const BinCount: int := FftSize / 2

  lemma HopSizeValue()
    ensures HopSize == 2048 && HopSize * 2 == ChunkSize
  {
  }

  // ---------------------------------------------------------------- slicing

  /** `Math.floor((channelData.length - chunkSize) / hopSize)`. */
  function NumChunks(sampleCount: nat): (n: int)
    ensures sampleCount < 4096 ==> n < 0
    ensures n > 0 <==> sampleCount >= 4096 + 2048
    ensures n >= 0 ==> 4096 + n * 2048 <= sampleCount < 4096 + (n + 1) * 2048
  {
    (sampleCount - 4096) / 2048
  }

  /** Worked example at one input: a ten-second mono recording at 44100 Hz
      yields 213 windows. */
  lemma TenSecondsAt44100()
    ensures NumChunks(441000) == 213
  {
  }

  /** `Array.prototype.slice(start, end)` for non-negative bounds, element by
      element from `start` up to `end` or the end of s, whichever comes first. */
  function JsSlice<T>(s: seq<T>, start: nat, end: nat): seq<T>
    decreases end - start
  {
    if start >= end || start >= |s| then [] else [s[start]] + JsSlice(s, start + 1, end)
  }

  /** The slice is the block of s between the clamped bounds. */
  lemma {:induction false} JsSliceSpec<T>(s: seq<T>, start: nat, end: nat)
    ensures var e := Min(end, |s|);
      JsSlice(s, start, end) == if e <= start then [] else s[start..e]
    decreases end - start
  {
    if !(start >= end || start >= |s|) {
      JsSliceSpec(s, start + 1, end);
      var e := Min(end, |s|);
      assert s[start..e] == [s[start]] + s[start + 1..e];
    }
  }

  /** `i * hopSize`. */
  function ChunkStart(i: nat): nat {
    i * 2048
  }

  /** `channelData.slice(i * hopSize, i * hopSize + chunkSize)`. */
  function Chunk(channel: seq<real>, i: nat): seq<real> {
    JsSlice(channel, ChunkStart(i), ChunkStart(i) + 4096)
  }

  /** Every window the loop asks for lies inside the channel, so the slice
      never comes back short. */
  lemma ChunkInBounds(channel: seq<real>, i: nat)
    requires i < NumChunks(|channel|)
    ensures ChunkStart(i) + ChunkSize <= |channel|
    ensures Chunk(channel, i) == channel[ChunkStart(i)..ChunkStart(i) + ChunkSize]
    ensures |Chunk(channel, i)| == ChunkSize
  {
    HopSizeValue();
    JsSliceSpec(channel, ChunkStart(i), ChunkStart(i) + 4096);
  }

  /** Consecutive windows overlap by half: the second half of window i is
      the first half of window i + 1. */
  lemma ChunksOverlap(channel: seq<real>, i: nat)
    requires i + 1 < NumChunks(|channel|)
    ensures var a, b := Chunk(channel, i), Chunk(channel, i + 1);
      |a| == |b| == ChunkSize && a[HopSize..] == b[..HopSize]
  {
    ChunkInBounds(channel, i);
    ChunkInBounds(channel, i + 1);
    HopSizeValue();
    var a, b := Chunk(channel, i), Chunk(channel, i + 1);
    var s := ChunkStart(i);
    assert ChunkStart(i + 1) == s + HopSize;
    forall k | 0 <= k < HopSize ensures a[HopSize..][k] == b[..HopSize][k] {
      assert a[HopSize + k] == channel[s + HopSize + k] == b[k];
    }
  }

  // ---------------------------------------------------------------- batches

  /** The half-open index range [start, end) of one batch. */
  datatype Batch = Batch(start: int, end: int)

  /** The batches `for (chunkStart = start; chunkStart < n; chunkStart += 32)`
      visits, with `batchEnd = Math.min(chunkStart + 32, n)`. */
  function Batches(start: int, n: int): seq<Batch>
    decreases n - start
  {
    if start >= n then [] else [Batch(start, Min(start + BatchSize, n))] + Batches(start + BatchSize, n)
  }

  /** The chunk indices the batches hold, batch after batch. */
  function Indices(bs: seq<Batch>): seq<int> {
    if bs == [] then [] else Range(bs[0].start, bs[0].end) + Indices(bs[1..])
  }

  /** The batches partition [start, n): every index is processed exactly
      once, in increasing order. */
  lemma {:induction false} BatchesPartition(start: int, n: int)
    ensures Indices(Batches(start, n)) == Range(start, Max(start, n))
    decreases n - start
  {
    if start < n {
      var bs := Batches(start, n);
      var e := Min(start + BatchSize, n);
      assert bs[0] == Batch(start, e) && bs[1..] == Batches(start + BatchSize, n);
      BatchesPartition(start + BatchSize, n);
      if start + BatchSize < n {
        RangeSplit(start, e, n);
      } else {
        assert Batches(start + BatchSize, n) == [];
        assert Range(start, e) + [] == Range(start, e);
      }
    }
  }

  /** Every batch is non-empty and holds at most 32 chunks; batch k starts at
      start + 32 k, and each batch ends where the next one starts. */
  lemma {:induction false} BatchesShape(start: int, n: int)
    ensures forall k :: 0 <= k < |Batches(start, n)| ==>
      var b := Batches(start, n)[k];
      b.start == start + 32 * k && b.start < b.end <= b.start + BatchSize && b.end <= n
    ensures forall k :: 0 <= k < |Batches(start, n)| - 1 ==>
      Batches(start, n)[k].end == Batches(start, n)[k + 1].start
    decreases n - start
  {
    if start < n {
      BatchesShape(start + BatchSize, n);
      var bs := Batches(start, n);
      var rest := Batches(start + BatchSize, n);
      assert bs == [bs[0]] + rest;
      forall k | 0 <= k < |bs|
        ensures bs[k].start == start + 32 * k && bs[k].start < bs[k].end <= bs[k].start + BatchSize && bs[k].end <= n
      {
        if k > 0 { assert bs[k] == rest[k - 1]; }
      }
      forall k | 0 <= k < |bs| - 1 ensures bs[k].end == bs[k + 1].start {
        if k > 0 { assert bs[k] == rest[k - 1] && bs[k + 1] == rest[k]; }
        else if rest != [] { assert bs[1] == rest[0]; }
      }
    }
  }

  // ---------------------------------------------------------------- geometry

  const LeftPadding: int := 40
  const RightPadding: int := 80
  const TopPadding: int := 25
  const BottomPadding: int := 30

  datatype Rect = Rect(x: int, y: int, width: int, height: int)

  /** The plot area `resizeCanvas` reserves inside a canvas of the given
      size: margins of 40 (left), 80 (right), 25 (top) and 30 (bottom). */
  function PlotRect(canvasWidth: int, canvasHeight: int): (r: Rect)
    ensures r.x == LeftPadding && r.y == TopPadding
    ensures r.x + r.width + RightPadding == canvasWidth
    ensures r.y + r.height + BottomPadding == canvasHeight
  {
    Rect(LeftPadding, TopPadding, canvasWidth - (LeftPadding + RightPadding), canvasHeight - (TopPadding + BottomPadding))
  }

  /** `Math.floor((column / numChunks) * spectrumWidth)`. */
  function ColumnOffset(column: int, numChunks: int, width: int): int
    requires numChunks > 0
  {
    ((column as real / numChunks as real) * width as real).Floor
  }

  /** `canvas.spectrumX + Math.floor((column / numChunks) * spectrumWidth)`. */
  function ColumnX(column: int, numChunks: int, plot: Rect): int
    requires numChunks > 0
  {
    plot.x + ColumnOffset(column, numChunks, plot.width)
  }

  lemma MulLeMonotone(a: int, b: int, w: int)
    requires a <= b && w >= 0
    ensures a * w <= b * w
  {
    assert (b - a) * w >= 0;
  }

  lemma RealMulMonotone(a: real, b: real, c: real)
    requires a <= b && c >= 0.0
    ensures a * c <= b * c
  {
    assert (b - a) * c >= 0.0;
  }

  /** Columns move right (never left) as the column index grows, and for a
      plot at least one pixel wide every column 0 <= c < numChunks starts
      inside [spectrumX, spectrumX + spectrumWidth). */
  lemma ColumnXBounds(c1: int, c2: int, numChunks: int, plot: Rect)
    requires numChunks > 0 && plot.width >= 0
    requires 0 <= c1 <= c2
    ensures ColumnX(c1, numChunks, plot) <= ColumnX(c2, numChunks, plot)
    ensures plot.x <= ColumnX(c1, numChunks, plot)
    ensures c1 < numChunks && plot.width > 0 ==> ColumnX(c1, numChunks, plot) < plot.x + plot.width
  {
    var n, w := numChunks as real, plot.width as real;
    var t1, t2 := c1 as real / n, c2 as real / n;
    assert 0.0 <= t1 <= t2 by {
      assert t2 - t1 == (c2 - c1) as real / n;
    }
    RealMulMonotone(t1, t2, w);
    RealMulMonotone(0.0, t1, w);
    if c1 < numChunks {
      assert t1 < 1.0;
      if plot.width > 0 {
        assert t1 * w < w by { assert (1.0 - t1) * w > 0.0; }
      }
    }
  }

  /** `Math.ceil(spectrumWidth / numChunks)`, the width of every painted cell. */
  function ColumnWidth(width: int, numChunks: int): (cw: int)
    requires numChunks > 0
    ensures cw as real - 1.0 < width as real / numChunks as real <= cw as real
  {
    -((-(width as real / numChunks as real)).Floor)
  }

  /** Painted cells leave no gap: each column's cell reaches the next
      column's x, and the last column's cell ends exactly at the right edge
      of the plot. */
  lemma ColumnsCoverPlot(column: int, numChunks: int, plot: Rect)
    requires numChunks > 0 && 0 <= column
    ensures ColumnX(column + 1, numChunks, plot) <= ColumnX(column, numChunks, plot) + ColumnWidth(plot.width, numChunks)
    ensures ColumnX(numChunks - 1, numChunks, plot) + ColumnWidth(plot.width, numChunks) == plot.x + plot.width
  {
    var n, w := numChunks as real, plot.width as real;
    var step := w / n;
    assert ((column + 1) as real / n) * w == (column as real / n) * w + step;
    assert ((numChunks - 1) as real / n) * w == w - step;
  }

  // ---------------------------------------------------------------- frequency axis

  function RealMin(a: real, b: real): real { if a <= b then a else b }

  /** `Math.min(sampleRate / 2, 20000) * 1.15`: the Nyquist frequency capped
      at 20 kHz, plus 15% headroom. */
  function DisplayMaxFreq(sampleRate: real): (f: real)
    requires sampleRate > 0.0
    ensures 0.0 < f <= 23000.0
  {
    RealMin(sampleRate / 2.0, 20000.0) * 1.15
  }

  /** Worked example at one sample rate: at 44.1 kHz the display limit is
      the full 23 kHz. */
  lemma DisplayMaxFreqOf44100()
    ensures DisplayMaxFreq(44100.0) == 23000.0
  {
  }

  /** `i * (sampleRate / 2) / (fftSize / 2)`: the centre frequency of bin i. */
  function BinFrequency(bin: int, sampleRate: real): real {
    bin as real * (sampleRate / 2.0) / (FftSize as real / 2.0)
  }

  lemma BinFrequencyMonotone(b1: int, b2: int, sampleRate: real)
    requires b1 < b2 && sampleRate > 0.0
    ensures BinFrequency(b1, sampleRate) < BinFrequency(b2, sampleRate)
  {
    var h := sampleRate / 2.0 / 2048.0;
    assert BinFrequency(b1, sampleRate) == b1 as real * h;
    assert BinFrequency(b2, sampleRate) == b2 as real * h;
    assert (b2 as real - b1 as real) * h > 0.0;
  }

  /** The index of the first bin in [from, count) whose frequency is above
      displayMaxFreq, or count when there is none: where the paint loop
      breaks. */
  function CutoffBin(from: nat, count: nat, sampleRate: real): (k: nat)
    requires sampleRate > 0.0
    requires from <= count
    ensures from <= k <= count
    ensures forall b :: from <= b < k ==> BinFrequency(b, sampleRate) <= DisplayMaxFreq(sampleRate)
    ensures k < count ==> BinFrequency(k, sampleRate) > DisplayMaxFreq(sampleRate)
    decreases count - from
  {
    if from == count || BinFrequency(from, sampleRate) > DisplayMaxFreq(sampleRate) then from
    else CutoffBin(from + 1, count, sampleRate)
  }

  /** Breaking at the cutoff skips nothing that would have been painted:
      every later bin is above displayMaxFreq too. */
  lemma CutoffIsFinal(count: nat, sampleRate: real, b: int)
    requires sampleRate > 0.0
    requires CutoffBin(0, count, sampleRate) <= b < count
    ensures BinFrequency(b, sampleRate) > DisplayMaxFreq(sampleRate)
  {
    var k := CutoffBin(0, count, sampleRate);
    if k < b { BinFrequencyMonotone(k, b, sampleRate); }
  }

  /** `spectrumY + Math.floor(spectrumHeight * (1 - frequency / displayMaxFreq))`. */
  function BinY(bin: int, sampleRate: real, plot: Rect): int
    requires sampleRate > 0.0
  {
    plot.y + (plot.height as real * (1.0 - BinFrequency(bin, sampleRate) / DisplayMaxFreq(sampleRate))).Floor
  }

  lemma MulUnitBounds(h: real, t: real)
    requires h >= 0.0 && 0.0 <= t <= 1.0
    ensures 0.0 <= h * t <= h
  {
    assert h * t <= h * 1.0 by { assert h * (1.0 - t) >= 0.0; }
  }

  /** Every bin that is painted lands inside [spectrumY, spectrumY + spectrumHeight]. */
  lemma BinYInPlot(bin: nat, sampleRate: real, plot: Rect)
    requires sampleRate > 0.0 && plot.height >= 0
    requires BinFrequency(bin, sampleRate) <= DisplayMaxFreq(sampleRate)
    ensures plot.y <= BinY(bin, sampleRate, plot) <= plot.y + plot.height
  {
    var f, m := BinFrequency(bin, sampleRate), DisplayMaxFreq(sampleRate);
    assert f >= 0.0 by {
      assert bin as real * (sampleRate / 2.0) >= 0.0;
    }
    var t := 1.0 - f / m;
    DivUnit(f, m);
    MulUnitBounds(plot.height as real, t);
  }

  /** Tick spacing: 5 kHz when displayMaxFreq is above 20 kHz, else 2.5 kHz. */
  function FreqStep(displayMaxFreq: real): int {
    if displayMaxFreq > 20000.0 then 5000 else 2500
  }

  // ---------------------------------------------------------------- colour map

  datatype Color = Rgb(r: int, g: int, b: int)

  /** `(db + 120) / 120`. */
  function Level(db: real): real { (db + 120.0) / 120.0 }

  /** `getColorForDecibel`: five linear segments with breakpoints 0.2, 0.4,
      0.6 and 0.8 of the normalised level, each rounded down with
      `Math.floor`; levels outside [0, 1] extrapolate and are not clamped. */
  function ColorForDecibel(db: real): Color {
    var v := Level(db);
    if v < 0.2 then Rgb(0, 0, (v * 5.0 * 255.0).Floor)
    else if v < 0.4 then Rgb(((v - 0.2) * 5.0 * 255.0).Floor, 0, 255)
    else if v < 0.6 then Rgb(255, 0, ((0.6 - v) * 5.0 * 255.0).Floor)
    else if v < 0.8 then Rgb(255, ((v - 0.6) * 5.0 * 255.0).Floor, 0)
    else Rgb(255, 255, ((v - 0.8) * 5.0 * 255.0).Floor)
  }

  /** The bottom of the range is black and the top is white (exact reals;
      with doubles the blue channel at 0 dB comes out as 254). */
  lemma ColorEndpoints()
    ensures ColorForDecibel(-120.0) == Rgb(0, 0, 0)
    ensures ColorForDecibel(0.0) == Rgb(255, 255, 255)
  {
  }

  predicate InByteRange(c: Color) {
    0 <= c.r <= 255 && 0 <= c.g <= 255 && 0 <= c.b <= 255
  }

  /** Over the nominal range [-120, 0] dB every component is in [0, 255]. */
  lemma ColorInRange(db: real)
    requires -120.0 <= db <= 0.0
    ensures InByteRange(ColorForDecibel(db))
  {
    var v := Level(db);
    assert 0.0 <= v <= 1.0;
  }

  /** Below -120 dB `getColorForDecibel` computes a negative blue channel
      rather than clamping it; it is the browser's CSS parser that clamps
      the resulting `rgb(0, 0, -255)` to black when the cell is painted. */
  lemma ColorNotClamped()
    ensures ColorForDecibel(-144.0) == Rgb(0, 0, -255)
  {
    assert Level(-144.0) == -0.2;
    assert -0.2 * 5.0 * 255.0 == -255.0;
  }

  /** The colour stops of the dB legend: 0, -24, -48, -72, -96 and -120 dB
      are white, yellow, red, magenta, blue and black. */
  lemma LegendStopColors()
    ensures ColorForDecibel(0.0) == Rgb(255, 255, 255)
    ensures ColorForDecibel(-24.0) == Rgb(255, 255, 0)
    ensures ColorForDecibel(-48.0) == Rgb(255, 0, 0)
    ensures ColorForDecibel(-72.0) == Rgb(255, 0, 255)
    ensures ColorForDecibel(-96.0) == Rgb(0, 0, 255)
    ensures ColorForDecibel(-120.0) == Rgb(0, 0, 0)
  {
    assert Level(-24.0) == 0.8;
    assert Level(-48.0) == 0.6;
    assert Level(-72.0) == 0.4;
    assert Level(-96.0) == 0.2;
  }

  /** The gradient stops `drawDBScale` uses: (position, dB). */
  const LegendStops: seq<(real, int)> := [(0.0, 0), (0.2, -24), (0.4, -48), (0.6, -72), (0.8, -96), (1.0, -120)]

  const LegendWidth: int := 20
  const LegendRightPadding: int := 35

  // ---------------------------------------------------------------- drawing

  /** One drawing command on a canvas. A canvas is modelled as the list of
      commands painted on it since it was last cleared. */
  datatype Draw =
    | Cell(x: int, y: int, width: int, height: int, color: Color)
    | FreqLabel(kilohertz: int, freqX: int, freqY: real)
    | TimeLabel(seconds: real, timeX: real, timeY: int)
    | LegendBar(x: int, y: int, width: int, height: int, stops: seq<(real, Color)>)
    | DbLabel(db: int, dbX: int, dbY: real)

  const Black: Color := Rgb(0, 0, 0)

  /** `fillStyle = 'black'; fillRect(0, 0, canvas.width, canvas.height)`. */
  function Background(canvasWidth: int, canvasHeight: int): Draw {
    Cell(0, 0, canvasWidth, canvasHeight, Black)
  }

  /** The one-pixel-high cell painted for bin `bin` of a column. */
  function BinCell(column: int, numChunks: int, plot: Rect, sampleRate: real, frame: seq<real>, bin: nat): Draw
    requires numChunks > 0 && sampleRate > 0.0 && bin < |frame|
  {
    Cell(ColumnX(column, numChunks, plot), BinY(bin, sampleRate, plot), ColumnWidth(plot.width, numChunks), 1,
         ColorForDecibel(frame[bin]))
  }

  /** The cells for bins 0 .. count-1 of one column, bottom-most frequency first. */
  function BinCells(column: int, numChunks: int, plot: Rect, sampleRate: real, frame: seq<real>, count: nat): (r: seq<Draw>)
    requires numChunks > 0 && sampleRate > 0.0 && count <= |frame|
    ensures |r| == count
  {
    if count == 0 then []
    else BinCells(column, numChunks, plot, sampleRate, frame, count - 1) + [BinCell(column, numChunks, plot, sampleRate, frame, count - 1)]
  }

  /** Cell b of BinCells is the cell of bin b. */
  lemma {:induction false} BinCellsAt(column: int, numChunks: int, plot: Rect, sampleRate: real, frame: seq<real>, count: nat)
    requires numChunks > 0 && sampleRate > 0.0 && count <= |frame|
    ensures forall b :: 0 <= b < count ==>
      BinCells(column, numChunks, plot, sampleRate, frame, count)[b] == BinCell(column, numChunks, plot, sampleRate, frame, b)
  {
    if count > 0 {
      BinCellsAt(column, numChunks, plot, sampleRate, frame, count - 1);
    }
  }

  /** Everything the paint loop draws for one analysed frame: one cell per
      bin up to the cut-off. */
  function ColumnCells(column: int, numChunks: int, plot: Rect, sampleRate: real, frame: seq<real>): seq<Draw>
    requires numChunks > 0 && sampleRate > 0.0
  {
    BinCells(column, numChunks, plot, sampleRate, frame, CutoffBin(0, |frame|, sampleRate))
  }

  predicate InsidePlot(d: Draw, plot: Rect) {
    d.Cell? && plot.x <= d.x < plot.x + plot.width && plot.y <= d.y <= plot.y + plot.height
  }

  /** A column of a frame of any length: its cells are the bins below the
      cut-off in order, each coloured by its own dB value and, for a real
      column of a non-degenerate plot, placed inside the plot. */
  lemma ColumnCellsSpec(column: int, numChunks: int, plot: Rect, sampleRate: real, frame: seq<real>)
    requires numChunks > 0 && sampleRate > 0.0
    requires 0 <= column < numChunks && plot.width > 0 && plot.height >= 0
    ensures var cells := ColumnCells(column, numChunks, plot, sampleRate, frame);
      |cells| == CutoffBin(0, |frame|, sampleRate) <= |frame| &&
      forall b :: 0 <= b < |cells| ==>
        InsidePlot(cells[b], plot) && cells[b].height == 1 &&
        cells[b].color == ColorForDecibel(frame[b]) &&
        cells[b].x == ColumnX(column, numChunks, plot) && cells[b].y == BinY(b, sampleRate, plot)
  {
    var cells := ColumnCells(column, numChunks, plot, sampleRate, frame);
    BinCellsAt(column, numChunks, plot, sampleRate, frame, CutoffBin(0, |frame|, sampleRate));
    ColumnXBounds(column, column, numChunks, plot);
    forall b | 0 <= b < |cells| ensures InsidePlot(cells[b], plot) {
      BinYInPlot(b, sampleRate, plot);
    }
  }

  /** Worked example at one sample rate: for a standard analyser frame of
      2048 bins at 44.1 kHz every bin up to 23 kHz is painted: 2136 bins
      would be needed to pass it, so the whole frame is drawn. */
  lemma FullFrameAt44100(column: int, numChunks: int, plot: Rect, frame: seq<real>)
    requires numChunks > 0 && |frame| == BinCount
    ensures |ColumnCells(column, numChunks, plot, 44100.0, frame)| == BinCount
  {
    var k := CutoffBin(0, |frame|, 44100.0);
    assert BinFrequency(2047, 44100.0) < 23000.0;
  }

  /** `Math.round`: the nearest integer, halves rounded up. */
  function JsRound(x: real): int { (x + 0.5).Floor }

  /** The number of frequency ticks `for (freq = 0; freq <= displayMaxFreq;
      freq += freqStep)` draws. */
  function FreqTickCount(displayMaxFreq: real): (count: nat)
    requires displayMaxFreq >= 0.0
    ensures ((count - 1) * FreqStep(displayMaxFreq)) as real <= displayMaxFreq < (count * FreqStep(displayMaxFreq)) as real
  {
    var step := FreqStep(displayMaxFreq) as real;
    var q := (displayMaxFreq / step).Floor;
    assert q as real <= displayMaxFreq / step < q as real + 1.0;
    assert (q as real) * step <= displayMaxFreq < (q as real + 1.0) * step;
    q + 1
  }

  /** `fillText(`${Math.round(freq / 1000)}k`, spectrumX - 5, y + 4)` for the
      tick at `freq`. */
  function FreqTick(freq: int, displayMaxFreq: real, plot: Rect): Draw
    requires displayMaxFreq > 0.0
  {
    FreqLabel(JsRound(freq as real / 1000.0), plot.x - 5,
              plot.y as real + plot.height as real * (1.0 - freq as real / displayMaxFreq) + 4.0)
  }

  /** The first `count` ticks of the frequency axis, from 0 Hz upwards. */
  function FreqTicks(displayMaxFreq: real, plot: Rect, count: nat): (r: seq<Draw>)
    requires displayMaxFreq > 0.0
    ensures |r| == count
    ensures forall k :: 0 <= k < count ==> r[k] == FreqTick(k * FreqStep(displayMaxFreq), displayMaxFreq, plot)
  {
    if count == 0 then [] else FreqTicks(displayMaxFreq, plot, count - 1) + [FreqTick((count - 1) * FreqStep(displayMaxFreq), displayMaxFreq, plot)]
  }

  /** The whole frequency axis. */
  function FreqScale(displayMaxFreq: real, plot: Rect): seq<Draw>
    requires displayMaxFreq > 0.0
  {
    FreqTicks(displayMaxFreq, plot, FreqTickCount(displayMaxFreq))
  }

  /** Worked examples at two sample rates: at 44.1 kHz the axis reads 0k,
      5k, 10k, 15k and 20k; at 32 kHz
      (display limit 18.4 kHz) it reads 0k to 18k in 2.5 kHz steps, with the
      half-kilohertz labels rounded up. */
  lemma FreqScaleExamples(plot: Rect)
    ensures var s := FreqScale(23000.0, plot);
      |s| == 5 && s[0].kilohertz == 0 && s[1].kilohertz == 5 && s[4].kilohertz == 20
    ensures var s := FreqScale(18400.0, plot);
      |s| == 8 && s[1].kilohertz == 3 && s[7].kilohertz == 18
  {
    assert FreqTickCount(23000.0) == 5;
    assert FreqTickCount(18400.0) == 8;
  }

  lemma DivUnit(f: real, m: real)
    requires 0.0 <= f <= m && m > 0.0
    ensures 0.0 <= f / m <= 1.0
  {
    assert (f / m) * m == f;
  }

  /** The tick for 0 Hz sits at the bottom edge of the plot, and every tick
      lies within the plot's vertical extent. */
  lemma FreqTickInPlot(k: nat, displayMaxFreq: real, plot: Rect)
    requires displayMaxFreq > 0.0 && plot.height >= 0
    requires k < FreqTickCount(displayMaxFreq)
    ensures var y := FreqTick(k * FreqStep(displayMaxFreq), displayMaxFreq, plot).freqY;
      plot.y as real + 4.0 <= y <= (plot.y + plot.height) as real + 4.0 &&
      (k == 0 ==> y == (plot.y + plot.height) as real + 4.0)
  {
    var step := FreqStep(displayMaxFreq);
    var count := FreqTickCount(displayMaxFreq);
    MulLeMonotone(k, count - 1, step);
    MulLeMonotone(0, k, step);
    DivUnit((k * step) as real, displayMaxFreq);
    MulUnitBounds(plot.height as real, 1.0 - (k * step) as real / displayMaxFreq);
  }

  /** Higher frequency ticks are drawn strictly higher up. */
  lemma FreqTicksAscend(k: nat, displayMaxFreq: real, plot: Rect)
    requires displayMaxFreq > 0.0 && plot.height > 0
    ensures var step := FreqStep(displayMaxFreq);
      FreqTick((k + 1) * step, displayMaxFreq, plot).freqY < FreqTick(k * step, displayMaxFreq, plot).freqY
  {
    var step := FreqStep(displayMaxFreq);
    var h := plot.height as real;
    var t0, t1 := (k * step) as real / displayMaxFreq, ((k + 1) * step) as real / displayMaxFreq;
    assert t1 - t0 == step as real / displayMaxFreq;
    assert h * (1.0 - t1) < h * (1.0 - t0) by { assert h * (t1 - t0) > 0.0; }
  }

  /** Every frequency tick lies on the plot's vertical extent, the 0 Hz tick
      at the bottom edge, and higher ticks strictly above lower ones. */
  lemma FreqScaleInPlot(displayMaxFreq: real, plot: Rect)
    requires displayMaxFreq > 0.0 && plot.height > 0
    ensures var s := FreqScale(displayMaxFreq, plot);
      |s| >= 1 && s[0].freqY == (plot.y + plot.height) as real + 4.0 &&
      (forall k :: 0 <= k < |s| ==>
        plot.y as real + 4.0 <= s[k].freqY <= (plot.y + plot.height) as real + 4.0) &&
      (forall k :: 0 <= k < |s| - 1 ==> s[k + 1].freqY < s[k].freqY)
  {
    var s := FreqScale(displayMaxFreq, plot);
    var step := FreqStep(displayMaxFreq);
    FreqTickInPlot(0, displayMaxFreq, plot);
    forall k | 0 <= k < |s|
      ensures plot.y as real + 4.0 <= s[k].freqY <= (plot.y + plot.height) as real + 4.0
    {
      FreqTickInPlot(k, displayMaxFreq, plot);
    }
    forall k | 0 <= k < |s| - 1 ensures s[k + 1].freqY < s[k].freqY {
      FreqTicksAscend(k, displayMaxFreq, plot);
      assert s[k + 1] == FreqTick((k + 1) * step, displayMaxFreq, plot);
    }
  }

  /** `[0, duration/4, duration/2, (duration*3)/4, duration]`. */
  function TimePoints(duration: real): seq<real> {
    [0.0, duration / 4.0, duration / 2.0, (duration * 3.0) / 4.0, duration]
  }

  /** `fillText(`${time.toFixed(1)}s`, spectrumX + (time / duration) * spectrumWidth, canvas.height - 8)`. */
  function TimeTick(time: real, duration: real, plot: Rect, canvasHeight: int): Draw
    requires duration > 0.0
  {
    TimeLabel(time, plot.x as real + (time / duration) * plot.width as real, canvasHeight - 8)
  }

  /** The five time ticks sit at 0, 1/4, 1/2, 3/4 and all of the plot width. */
  lemma TimeTicksEvenlySpaced(duration: real, plot: Rect, canvasHeight: int)
    requires duration > 0.0
    ensures forall k :: 0 <= k < 5 ==>
      TimeTick(TimePoints(duration)[k], duration, plot, canvasHeight).timeX == plot.x as real + (k as real / 4.0) * plot.width as real
  {
    var p := TimePoints(duration);
    assert p[1] / duration == 0.25 && p[2] / duration == 0.5 && p[3] / duration == 0.75 && p[4] / duration == 1.0;
  }

  const LegendPositions: seq<real> := [0.0, 0.2, 0.4, 0.6, 0.8, 1.0]
  const LegendDbs: seq<int> := [0, -24, -48, -72, -96, -120]

  /** `x = width - rightPadding - scaleWidth` of the dB legend. */
  function LegendX(canvasWidth: int): int { canvasWidth - LegendRightPadding - LegendWidth }

  /** The gradient's colour stops: each position coloured by its dB value. */
  function LegendGradient(): (r: seq<(real, Color)>)
    ensures |r| == 6
  {
    seq(6, k requires 0 <= k < 6 => (LegendPositions[k], ColorForDecibel(LegendDbs[k] as real)))
  }

  /** `fillText(`${stop.db} dB`, x + scaleWidth + 25, y + pos * scaleHeight + 4)`. */
  function DbTick(k: int, canvasWidth: int, plot: Rect): Draw
    requires 0 <= k < 6
  {
    DbLabel(LegendDbs[k], LegendX(canvasWidth) + LegendWidth + 25, plot.y as real + LegendPositions[k] * plot.height as real + 4.0)
  }

  /** `drawDBScale`'s bar, spanning the plot's height to the right of it. */
  function LegendBarAt(canvasWidth: int, plot: Rect): Draw {
    LegendBar(LegendX(canvasWidth), plot.y, LegendWidth, plot.height, LegendGradient())
  }

  /** The legend runs from white at the top (0 dB) to black at the bottom
      (-120 dB) through yellow, red, magenta and blue, and its labels are
      evenly spaced over the plot's height. */
  lemma LegendSpec(canvasWidth: int, plot: Rect)
    ensures LegendGradient() == [(0.0, Rgb(255, 255, 255)), (0.2, Rgb(255, 255, 0)), (0.4, Rgb(255, 0, 0)),
                                 (0.6, Rgb(255, 0, 255)), (0.8, Rgb(0, 0, 255)), (1.0, Black)]
    ensures forall k :: 0 <= k < 5 ==>
      DbTick(k + 1, canvasWidth, plot).dbY - DbTick(k, canvasWidth, plot).dbY == 0.2 * plot.height as real
  {
    LegendStopColors();
    var g := LegendGradient();
    assert g[0] == (0.0, ColorForDecibel(0.0));
    assert g[1] == (0.2, ColorForDecibel(-24.0));
    assert g[2] == (0.4, ColorForDecibel(-48.0));
    assert g[3] == (0.6, ColorForDecibel(-72.0));
    assert g[4] == (0.8, ColorForDecibel(-96.0));
    assert g[5] == (1.0, ColorForDecibel(-120.0));
  }

  /** `Math.round((batchEnd / numChunks) * 100)`: the percentage shown after a batch. */
  function ProgressPercent(batchEnd: int, numChunks: int): int
    requires numChunks > 0
  {
    JsRound((batchEnd as real / numChunks as real) * 100.0)
  }

  /** The progress texts shown after each of the first `batches` batches:
      batch k (from 0) ends at window min(32 (k + 1), numChunks). */
  function ProgressSteps(numChunks: int, batches: nat): (r: seq<int>)
    requires numChunks > 0 || batches == 0
    ensures |r| == batches
  {
    if batches == 0 then [] else ProgressSteps(numChunks, batches - 1) + [ProgressPercent(Min(32 * batches, numChunks), numChunks)]
  }

  /** The k-th progress text is the percentage of windows done once batch k
      (from 0) is in. */
  lemma {:induction false} ProgressStepAt(numChunks: int, batches: nat, k: nat)
    requires (numChunks > 0 || batches == 0) && k < batches
    ensures ProgressSteps(numChunks, batches)[k] == ProgressPercent(Min(32 * (k + 1), numChunks), numChunks)
  {
    if k < batches - 1 {
      ProgressStepAt(numChunks, batches - 1, k);
    }
  }

  /** One more batch adds one progress text at the end. */
  lemma ProgressStepsSnoc(numChunks: int, batches: nat)
    requires numChunks > 0
    ensures ProgressSteps(numChunks, batches + 1) ==
            ProgressSteps(numChunks, batches) + [ProgressPercent(Min(32 * batches + 32, numChunks), numChunks)]
  {
  }

  lemma ProgressBounds(e0: int, e1: int, numChunks: int)
    requires 0 < e0 <= e1 <= numChunks
    ensures 0 <= ProgressPercent(e0, numChunks) <= ProgressPercent(e1, numChunks) <= 100
    ensures ProgressPercent(numChunks, numChunks) == 100
  {
    var n := numChunks as real;
    DivUnit(e0 as real, n);
    DivUnit(e1 as real, n);
    DivMono(e0 as real, e1 as real, n);
    var p0, p1 := (e0 as real / n) * 100.0, (e1 as real / n) * 100.0;
    assert 0.0 <= p0 <= p1 <= 100.0;
    assert n / n == 1.0;
  }

  lemma DivMono(a: real, b: real, m: real)
    requires a <= b && m > 0.0
    ensures a / m <= b / m
  {
    assert b / m - a / m == (b - a) / m;
    assert ((b - a) / m) * m == b - a;
  }

  /** Progress never goes down, stays within 0..100, and the last batch of a
      run shows 100%. */
  lemma ProgressSpec(numChunks: int, batches: nat)
    requires numChunks > 0 && 32 * (batches - 1) < numChunks
    ensures var p := ProgressSteps(numChunks, batches);
      (forall k :: 0 <= k < batches ==> 0 <= p[k] <= 100) &&
      (forall k :: 0 <= k < batches - 1 ==> p[k] <= p[k + 1]) &&
      (32 * batches >= numChunks ==> p[batches - 1] == 100)
  {
    var p := ProgressSteps(numChunks, batches);
    forall k | 0 <= k < batches ensures 0 <= p[k] <= 100 {
      var e := Min(32 * (k + 1), numChunks);
      ProgressStepAt(numChunks, batches, k);
      ProgressBounds(e, e, numChunks);
    }
    forall k | 0 <= k < batches - 1 ensures p[k] <= p[k + 1] {
      ProgressStepAt(numChunks, batches, k);
      ProgressStepAt(numChunks, batches, k + 1);
      ProgressBounds(Min(32 * (k + 1), numChunks), Min(32 * (k + 2), numChunks), numChunks);
    }
    if 32 * batches >= numChunks {
      ProgressStepAt(numChunks, batches, batches - 1);
      ProgressBounds(numChunks, numChunks, numChunks);
    }
  }
}
