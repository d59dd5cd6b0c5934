/** The audio spectrum viewer's state and event handlers: file selection
    and drop, the single-flight analysis run that cuts the first channel
    into windows, sends them to the analyser 32 at a time and paints each
    returned frame as a column of one-pixel cells, and the axes and legend
    drawn when the run completes.

    The analyser (an `OfflineAudioContext` with an `AnalyserNode`) and the
    decoder (`decodeAudioData`) are parameters; `Promise.all` is modelled as
    handing back the batch's results in submission order, and an analysis
    run as completing without interruption. */
module AudioAnalyzer {
  import opened Common
  import opened Seqs
  import opened Spectrogram

  /** A decoded `AudioBuffer`: its sample rate, duration in seconds and first channel. */
  datatype AudioBuffer = AudioBuffer(sampleRate: real, duration: real, channel: seq<real>)

  /** What the decoder promises: a positive sample rate and a positive duration. */
  predicate ValidBuffer(b: AudioBuffer) {
    b.sampleRate > 0.0 && b.duration > 0.0
  }

  /** A file as far as the page looks at it: its name and MIME type. */
  datatype AudioFile = AudioFile(name: string, mimeType: string)

  /** `processAudioChunk(chunk, sampleRate, fftSize)`: the frame of dB values
      for one window, or None when its promise rejects. */
  type Analyser = (seq<real>, real) -> Option<seq<real>>

  datatype ButtonText = AnalyzeLabel | AnalyzingLabel | ProgressLabel(percent: int)

  const LoadFailedAlert: string := "Error loading audio file. Please try another file."
  const AnalysisFailedAlert: string := "An error occurred during analysis. Please try again."

  /** The MIME gate of drop and selection. */
  predicate IsAudio(f: AudioFile) {
    StartsWith(f.mimeType, "audio/")
  }

  function Frame(b: AudioBuffer, analyser: Analyser, c: nat): seq<real> {
    analyser(Chunk(b.channel, c), b.sampleRate).GetOr([])
  }

  predicate Rejected(b: AudioBuffer, analyser: Analyser, c: nat) {
    analyser(Chunk(b.channel, c), b.sampleRate).None?
  }

  /** The first window in [from, to) whose analysis rejects. */
  function FirstRejected(b: AudioBuffer, analyser: Analyser, from: nat, to: int): (r: Option<nat>)
    ensures r.None? <==> (forall c: nat :: from <= c < to ==> !Rejected(b, analyser, c))
    ensures r.Some? ==> from <= r.value < to && Rejected(b, analyser, r.value) &&
                        (forall c: nat :: from <= c < r.value ==> !Rejected(b, analyser, c))
    decreases if to <= from then 0 else to - from
  {
    if to <= from then None
    else if Rejected(b, analyser, from) then Some(from)
    else FirstRejected(b, analyser, from + 1, to)
  }

  /** Where the batch loop stops: after the last window when every window is
      analysed, or at the start of the batch whose `Promise.all` rejects. */
  function StopAt(b: AudioBuffer, analyser: Analyser): (stop: nat)
    ensures var n := NumChunks(|b.channel|);
      match FirstRejected(b, analyser, 0, n)
      case None => stop == Max(n, 0)
      case Some(c) => stop % 32 == 0 && stop <= c < stop + BatchSize && stop < n
  {
    match FirstRejected(b, analyser, 0, NumChunks(|b.channel|))
    case None => Max(NumChunks(|b.channel|), 0)
    case Some(c) => (c / 32) * 32
  }

  /** The cells painted for the frames of consecutive columns from `start`. */
  function ColumnsCells(start: int, numChunks: int, plot: Rect, sampleRate: real, frames: seq<seq<real>>): seq<Draw>
    requires numChunks > 0 && sampleRate > 0.0
  {
    if frames == [] then []
    else ColumnsCells(start, numChunks, plot, sampleRate, frames[..|frames| - 1]) +
         ColumnCells(start + |frames| - 1, numChunks, plot, sampleRate, frames[|frames| - 1])
  }

  /** The cells of the first `m` columns of a run, column by column. */
  function Spectrum(b: AudioBuffer, analyser: Analyser, plot: Rect, numChunks: int, m: nat): seq<Draw>
    requires ValidBuffer(b) && m <= Max(numChunks, 0)
  {
    if m == 0 then []
    else Spectrum(b, analyser, plot, numChunks, m - 1) + ColumnCells(m - 1, numChunks, plot, b.sampleRate, Frame(b, analyser, m - 1))
  }

  /** Every cell a run paints (whether it completes or is cut short) lies
      inside the plot. */
  lemma {:induction false} SpectrumInPlot(b: AudioBuffer, analyser: Analyser, plot: Rect, numChunks: int, m: nat)
    requires ValidBuffer(b) && m <= Max(numChunks, 0)
    requires plot.width > 0 && plot.height >= 0
    ensures forall k :: 0 <= k < |Spectrum(b, analyser, plot, numChunks, m)| ==>
      InsidePlot(Spectrum(b, analyser, plot, numChunks, m)[k], plot)
  {
    if m > 0 {
      SpectrumInPlot(b, analyser, plot, numChunks, m - 1);
      ColumnCellsSpec(m - 1, numChunks, plot, b.sampleRate, Frame(b, analyser, m - 1));
    }
  }

  /** A channel shorter than one window gives a negative window count: the
      batch loop does not run, nothing is sent to the analyser and no cell is
      painted. */
  lemma ShortChannelAnalysesNothing(b: AudioBuffer, analyser: Analyser, plot: Rect)
    requires ValidBuffer(b) && |b.channel| < ChunkSize
    ensures NumChunks(|b.channel|) < 0
    ensures FirstRejected(b, analyser, 0, NumChunks(|b.channel|)).None?
    ensures StopAt(b, analyser) == 0
    ensures Spectrum(b, analyser, plot, NumChunks(|b.channel|), 0) == []
  {
  }

  /** The ticks of the time axis. */
  function TimeScale(duration: real, plot: Rect, canvasHeight: int): (r: seq<Draw>)
    requires duration > 0.0
    ensures |r| == 5
  {
    seq(5, k requires 0 <= k < 5 => TimeTick(TimePoints(duration)[k], duration, plot, canvasHeight))
  }

  /** The labels of the dB legend, top to bottom. */
  function DbTicks(canvasWidth: int, plot: Rect): (r: seq<Draw>)
    ensures |r| == 6
  {
    seq(6, k requires 0 <= k < 6 => DbTick(k, canvasWidth, plot))
  }

  /** What a completed run draws after its last batch: the frequency axis,
      the time axis and the dB legend. */
  function Scales(b: AudioBuffer, plot: Rect, canvasWidth: int, canvasHeight: int): seq<Draw>
    requires ValidBuffer(b)
  {
    FreqScale(DisplayMaxFreq(b.sampleRate), plot) + TimeScale(b.duration, plot, canvasHeight) + DbScale(canvasWidth, plot)
  }

  /** The dB legend: its gradient bar, then its labels. */
  function DbScale(canvasWidth: int, plot: Rect): seq<Draw> {
    [LegendBarAt(canvasWidth, plot)] + DbTicks(canvasWidth, plot)
  }

  /** The number of batches drawn before the loop stops at `stop`. */
  function BatchCount(stop: nat): nat {
    (stop + BatchSize - 1) / 32
  }

  /** Painting the frames of windows start .. start + |frames| - 1 as
      consecutive columns extends a run's cells by exactly those columns. */
  lemma {:induction false} SpectrumExtend(b: AudioBuffer, analyser: Analyser, plot: Rect, numChunks: int, start: nat, frames: seq<seq<real>>)
    requires ValidBuffer(b) && numChunks > 0 && start + |frames| <= numChunks
    requires forall k :: 0 <= k < |frames| ==> frames[k] == Frame(b, analyser, start + k)
    ensures Spectrum(b, analyser, plot, numChunks, start + |frames|) ==
            Spectrum(b, analyser, plot, numChunks, start) + ColumnsCells(start, numChunks, plot, b.sampleRate, frames)
    decreases |frames|
  {
    if frames != [] {
      var init := frames[..|frames| - 1];
      var m := start + |frames| - 1;
      forall k | 0 <= k < |init| ensures init[k] == Frame(b, analyser, start + k) {
        assert init[k] == frames[k];
      }
      SpectrumExtend(b, analyser, plot, numChunks, start, init);
      var last := ColumnCells(m, numChunks, plot, b.sampleRate, Frame(b, analyser, m));
      var before := Spectrum(b, analyser, plot, numChunks, start);
      var middle := ColumnsCells(start, numChunks, plot, b.sampleRate, init);
      assert frames[|frames| - 1] == Frame(b, analyser, m);
      assert Spectrum(b, analyser, plot, numChunks, m + 1) == (before + middle) + last;
      assert ColumnsCells(start, numChunks, plot, b.sampleRate, frames) == middle + last;
      SeqAssoc(before, middle, last);
    }
  }

  /** A loop that left batch `batches` because it rejected stopped where StopAt says. */
  lemma StopOnFailure(b: AudioBuffer, analyser: Analyser, batches: nat)
    requires var n := NumChunks(|b.channel|);
      32 * batches < n &&
      (forall c: nat :: c < 32 * batches ==> !Rejected(b, analyser, c)) &&
      (exists c: nat :: 32 * batches <= c < Min(32 * batches + BatchSize, n) && Rejected(b, analyser, c))
    ensures FirstRejected(b, analyser, 0, NumChunks(|b.channel|)).Some?
    ensures StopAt(b, analyser) == 32 * batches && BatchCount(32 * batches) == batches
  {
    var n := NumChunks(|b.channel|);
    var w: nat :| 32 * batches <= w < Min(32 * batches + BatchSize, n) && Rejected(b, analyser, w);
    var r := FirstRejected(b, analyser, 0, n);
    assert r.Some?;
    assert 32 * batches <= r.value <= w;
    SameBatch(StopAt(b, analyser), 32 * batches, r.value);
    BatchCountOfMultiple(batches);
  }

  /** Two batch starts (multiples of 32) whose batches share a window are equal. */
  lemma SameBatch(s: int, t: int, c: int)
    requires s % 32 == 0 && t % 32 == 0
    requires s <= c < s + 32 && t <= c < t + 32
    ensures s == t
  {
  }

  lemma BatchCountOfMultiple(batches: nat)
    ensures BatchCount(32 * batches) == batches
  {
  }

  /** A loop that ran out of windows analysed every one of them. */
  lemma StopOnSuccess(b: AudioBuffer, analyser: Analyser, batches: nat)
    requires var n := NumChunks(|b.channel|);
      32 * batches >= n && (batches > 0 ==> 32 * (batches - 1) < n) &&
      (forall c: nat :: c < Min(32 * batches, n) ==> !Rejected(b, analyser, c))
    ensures FirstRejected(b, analyser, 0, NumChunks(|b.channel|)).None?
    ensures StopAt(b, analyser) == Max(NumChunks(|b.channel|), 0) && BatchCount(StopAt(b, analyser)) == batches
  {
  }

  /** The screen and progress after the first `batches` batches of a run
      over b succeeded, `done` windows in all: none of them rejected and
      each one's column is on the screen after the background; one progress
      value was shown per batch. */
  ghost predicate ProgressedView(b: AudioBuffer, analyser: Analyser, plot: Rect, background: Draw,
                                 screen: seq<Draw>, progress0: seq<int>, progressShown: seq<int>, done: nat, batches: nat)
    requires ValidBuffer(b)
  {
    var n := NumChunks(|b.channel|);
    && done == Min(32 * batches, Max(n, 0))
    && (batches > 0 ==> n > 0 && 32 * (batches - 1) < n)
    && (forall c: nat :: c < done ==> !Rejected(b, analyser, c))
    && screen == [background] + Spectrum(b, analyser, plot, n, done)
    && progressShown == progress0 + ProgressSteps(n, batches)
  }

  /** Where a batch loop that left at a rejected batch stops, stated
      through StopAt: at the start of the batch holding the first rejected
      window, having sent that whole batch to the analyser. */
  lemma LoopFailed(b: AudioBuffer, analyser: Analyser, plot: Rect, background: Draw,
                   chunks0: seq<nat>, progress0: seq<int>, chunks: seq<nat>, screen: seq<Draw>, progress: seq<int>,
                   done: nat, batches: nat)
    requires ValidBuffer(b)
    requires ProgressedView(b, analyser, plot, background, screen, progress0, progress, done, batches)
    requires var n := NumChunks(|b.channel|);
      && 32 * batches < n
      && (exists c: nat :: done <= c < Min(done + BatchSize, n) && Rejected(b, analyser, c))
      && chunks == chunks0 + Range(0, Min(done + BatchSize, n))
    ensures FirstRejected(b, analyser, 0, NumChunks(|b.channel|)).Some?
    ensures done == StopAt(b, analyser) && batches == BatchCount(done)
    ensures BatchesOutcome(b, analyser, plot, background, chunks0, progress0, chunks, screen, progress)
  {
    var n := NumChunks(|b.channel|);
    StopOnFailure(b, analyser, batches);
    RangeArg(chunks, chunks0, Min(done + BatchSize, n), Min(StopAt(b, analyser) + BatchSize, n));
  }

  /** Where a batch loop that ran out of windows stops: after the last
      one, having sent every window to the analyser. */
  lemma LoopCompleted(b: AudioBuffer, analyser: Analyser, plot: Rect, background: Draw,
                      chunks0: seq<nat>, progress0: seq<int>, chunks: seq<nat>, screen: seq<Draw>, progress: seq<int>,
                      done: nat, batches: nat)
    requires ValidBuffer(b)
    requires ProgressedView(b, analyser, plot, background, screen, progress0, progress, done, batches)
    requires 32 * batches >= NumChunks(|b.channel|) && chunks == chunks0 + Range(0, done)
    ensures FirstRejected(b, analyser, 0, NumChunks(|b.channel|)).None?
    ensures done == StopAt(b, analyser) && batches == BatchCount(done)
    ensures BatchesOutcome(b, analyser, plot, background, chunks0, progress0, chunks, screen, progress)
  {
    var n := NumChunks(|b.channel|);
    StopOnSuccess(b, analyser, batches);
    RangeArg(chunks, chunks0, done, Max(n, 0));
  }

  lemma RangeArg(s: seq<nat>, prefix: seq<nat>, x: int, y: int)
    requires x == y && s == prefix + Range(0, x)
    ensures s == prefix + Range(0, y)
  {
  }

  /** A batch none of whose windows rejects adds its columns to the screen
      and one progress value, and the run has progressed by one batch. */
  lemma BatchStep(b: AudioBuffer, analyser: Analyser, plot: Rect, background: Draw, screen: seq<Draw>,
                  progress0: seq<int>, progressShown: seq<int>, start: nat, batches: nat,
                  frames: seq<seq<real>>, cells: seq<Draw>)
    requires ValidBuffer(b) && start < NumChunks(|b.channel|) && start == 32 * batches
    requires ProgressedView(b, analyser, plot, background, screen, progress0, progressShown, start, batches)
    requires |frames| == Min(start + BatchSize, NumChunks(|b.channel|)) - start
    requires forall k :: 0 <= k < |frames| ==> frames[k] == Frame(b, analyser, start + k)
    requires forall c: nat :: start <= c < start + |frames| ==> !Rejected(b, analyser, c)
    requires cells == ColumnsCells(start, NumChunks(|b.channel|), plot, b.sampleRate, frames)
    ensures var n := NumChunks(|b.channel|);
      var end := Min(start + BatchSize, n);
      ProgressedView(b, analyser, plot, background, screen + cells, progress0,
                     progressShown + [ProgressPercent(end, n)], end, batches + 1)
  {
    var n := NumChunks(|b.channel|);
    var end := Min(start + BatchSize, n);
    ScreenStep(b, analyser, plot, background, screen, n, start, end, frames, cells);
    ProgressStep(progress0, progressShown, n, batches, end);
  }

  /** The screen part of BatchStep. */
  lemma ScreenStep(b: AudioBuffer, analyser: Analyser, plot: Rect, background: Draw, screen: seq<Draw>,
                   n: int, start: nat, end: nat, frames: seq<seq<real>>, cells: seq<Draw>)
    requires ValidBuffer(b) && n > 0 && end == start + |frames| <= n
    requires screen == [background] + Spectrum(b, analyser, plot, n, start)
    requires forall k :: 0 <= k < |frames| ==> frames[k] == Frame(b, analyser, start + k)
    requires cells == ColumnsCells(start, n, plot, b.sampleRate, frames)
    ensures screen + cells == [background] + Spectrum(b, analyser, plot, n, end)
  {
    SpectrumExtend(b, analyser, plot, n, start, frames);
    AppendStep(screen, [background], Spectrum(b, analyser, plot, n, start), cells, Spectrum(b, analyser, plot, n, end));
  }

  /** The progress part of BatchStep. */
  lemma ProgressStep(progress0: seq<int>, progressShown: seq<int>, n: int, batches: nat, end: int)
    requires n > 0 && progressShown == progress0 + ProgressSteps(n, batches)
    requires end == Min(32 * batches + 32, n)
    ensures progressShown + [ProgressPercent(end, n)] == progress0 + ProgressSteps(n, batches + 1)
  {
    ProgressStepsSnoc(n, batches);
    AppendStep(progressShown, progress0, ProgressSteps(n, batches), [ProgressPercent(end, n)], ProgressSteps(n, batches + 1));
  }

  /** What the batch loop leaves, from the history values before it: each
      window sent to the analyser up to the end of the rejected batch (or all
      of them), the screen holding the background and the columns before the
      stop, and one progress value per batch drawn. */
  ghost predicate BatchesOutcome(b: AudioBuffer, analyser: Analyser, plot: Rect, background: Draw,
                                 chunks0: seq<nat>, progress0: seq<int>,
                                 chunks: seq<nat>, screen: seq<Draw>, progress: seq<int>)
    requires ValidBuffer(b)
  {
    var n := NumChunks(|b.channel|);
    var stop := StopAt(b, analyser);
    && chunks == chunks0 + Range(0, if FirstRejected(b, analyser, 0, n).Some? then Min(stop + BatchSize, n) else Max(n, 0))
    && screen == [background] + Spectrum(b, analyser, plot, n, stop)
    && progress == progress0 + ProgressSteps(n, BatchCount(stop))
  }

  /** What a whole run leaves: the batch loop's outcome, then the scales
      drawn when no window rejected, or one more alert when one did. */
  ghost predicate RunOutcome(b: AudioBuffer, analyser: Analyser, plot: Rect, background: Draw, scales: seq<Draw>,
                             chunks0: seq<nat>, progress0: seq<int>, alerts0: seq<string>,
                             chunks: seq<nat>, screen: seq<Draw>, progress: seq<int>, alerts: seq<string>)
    requires ValidBuffer(b)
  {
    var n := NumChunks(|b.channel|);
    var failed := FirstRejected(b, analyser, 0, n).Some?;
    var painted := [background] + Spectrum(b, analyser, plot, n, StopAt(b, analyser));
    && BatchesOutcome(b, analyser, plot, background, chunks0, progress0, chunks, painted, progress)
    && screen == (if failed then painted else painted + scales)
    && alerts == (if failed then alerts0 + [AnalysisFailedAlert] else alerts0)
  }

  /** After a batch loop in which no window rejected, drawing the scales
      completes the run. */
  lemma FinishCompleted(b: AudioBuffer, analyser: Analyser, plot: Rect, background: Draw, scales: seq<Draw>,
                        chunks0: seq<nat>, progress0: seq<int>, alerts0: seq<string>,
                        chunks: seq<nat>, screen: seq<Draw>, progress: seq<int>)
    requires ValidBuffer(b) && FirstRejected(b, analyser, 0, NumChunks(|b.channel|)).None?
    requires BatchesOutcome(b, analyser, plot, background, chunks0, progress0, chunks, screen, progress)
    ensures RunOutcome(b, analyser, plot, background, scales, chunks0, progress0, alerts0, chunks, screen + scales, progress, alerts0)
  {
  }

  /** After a batch loop that stopped at a rejected batch, one more alert
      completes the run. */
  lemma FinishFailed(b: AudioBuffer, analyser: Analyser, plot: Rect, background: Draw, scales: seq<Draw>,
                     chunks0: seq<nat>, progress0: seq<int>, alerts0: seq<string>,
                     chunks: seq<nat>, screen: seq<Draw>, progress: seq<int>)
    requires ValidBuffer(b) && FirstRejected(b, analyser, 0, NumChunks(|b.channel|)).Some?
    requires BatchesOutcome(b, analyser, plot, background, chunks0, progress0, chunks, screen, progress)
    ensures RunOutcome(b, analyser, plot, background, scales, chunks0, progress0, alerts0, chunks, screen, progress, alerts0 + [AnalysisFailedAlert])
  {
  }

  // ---------------------------------------------------------------- drawing loops

  /** The inner `for` loop over a frame's bins, with its `break` at the first
      bin above displayMaxFreq. */
  method PaintColumn(column: int, numChunks: int, plot: Rect, sampleRate: real, frame: seq<real>) returns (cells: seq<Draw>)
    requires numChunks > 0 && sampleRate > 0.0
    ensures cells == ColumnCells(column, numChunks, plot, sampleRate, frame)
  {
    var displayMaxFreq := DisplayMaxFreq(sampleRate);
    cells := [];
    var i := 0;
    while i < |frame|
      invariant 0 <= i <= |frame|
      invariant forall k :: 0 <= k < i ==> BinFrequency(k, sampleRate) <= displayMaxFreq
      invariant cells == BinCells(column, numChunks, plot, sampleRate, frame, i)
    {
      var frequency := BinFrequency(i, sampleRate);
      if frequency > displayMaxFreq {
        break;
      }
      cells := cells + [BinCell(column, numChunks, plot, sampleRate, frame, i)];
      i := i + 1;
    }
    assert i == CutoffBin(0, |frame|, sampleRate);
  }

  /** `batchResults.forEach(...)`: each frame of the batch painted as the
      column `chunkStart + batchIndex`. */
  method PaintBatch(chunkStart: int, numChunks: int, plot: Rect, sampleRate: real, frames: seq<seq<real>>) returns (cells: seq<Draw>)
    requires numChunks > 0 && sampleRate > 0.0
    ensures cells == ColumnsCells(chunkStart, numChunks, plot, sampleRate, frames)
  {
    cells := [];
    for batchIndex := 0 to |frames|
      invariant cells == ColumnsCells(chunkStart, numChunks, plot, sampleRate, frames[..batchIndex])
    {
      var painted := PaintColumn(chunkStart + batchIndex, numChunks, plot, sampleRate, frames[batchIndex]);
      cells := cells + painted;
      assert frames[..batchIndex + 1][..batchIndex] == frames[..batchIndex];
    }
    assert frames[..|frames|] == frames;
  }

  lemma CountUnique(a: int, c: int, step: int, x: real)
    requires step > 0
    requires ((a - 1) * step) as real <= x < (a * step) as real
    requires ((c - 1) * step) as real <= x < (c * step) as real
    ensures a == c
  {
    if a < c {
      MulLeMonotone(a, c - 1, step);
    } else if c < a {
      MulLeMonotone(c, a - 1, step);
    }
  }

  /** The frequency-axis loop `for (freq = 0; freq <= displayMaxFreq; freq += freqStep)`. */
  method DrawFrequencyScale(displayMaxFreq: real, plot: Rect) returns (labels: seq<Draw>)
    requires displayMaxFreq > 0.0
    ensures labels == FreqScale(displayMaxFreq, plot)
  {
    var step := FreqStep(displayMaxFreq);
    labels := [];
    var freq := 0;
    while freq as real <= displayMaxFreq
      invariant freq == |labels| * step
      invariant labels == FreqTicks(displayMaxFreq, plot, |labels|)
      invariant ((|labels| - 1) * step) as real <= displayMaxFreq
      decreases displayMaxFreq.Floor - freq
    {
      labels := labels + [FreqTick(freq, displayMaxFreq, plot)];
      freq := freq + step;
    }
    CountUnique(|labels|, FreqTickCount(displayMaxFreq), step, displayMaxFreq);
  }

  /** `timePoints.forEach(...)`: one label per time point. */
  method DrawTimeScale(duration: real, plot: Rect, canvasHeight: int) returns (labels: seq<Draw>)
    requires duration > 0.0
    ensures labels == TimeScale(duration, plot, canvasHeight)
  {
    var timePoints := TimePoints(duration);
    labels := [];
    for i := 0 to |timePoints|
      invariant |labels| == i
      invariant forall k :: 0 <= k < i ==> labels[k] == TimeTick(timePoints[k], duration, plot, canvasHeight)
    {
      labels := labels + [TimeTick(timePoints[i], duration, plot, canvasHeight)];
    }
  }

  /** `drawDBScale`: the gradient's colour stops are added in a loop, the bar
      is filled, then one label per stop is drawn. */
  method DrawDbScale(canvasWidth: int, plot: Rect) returns (draws: seq<Draw>)
    ensures draws == DbScale(canvasWidth, plot)
  {
    var gradient: seq<(real, Color)> := [];
    for k := 0 to |LegendPositions|
      invariant |gradient| == k
      invariant forall j :: 0 <= j < k ==> gradient[j] == (LegendPositions[j], ColorForDecibel(LegendDbs[j] as real))
    {
      gradient := gradient + [(LegendPositions[k], ColorForDecibel(LegendDbs[k] as real))];
    }
    assert gradient == LegendGradient();
    draws := [LegendBar(LegendX(canvasWidth), plot.y, LegendWidth, plot.height, gradient)];
    for k := 0 to |LegendPositions|
      invariant |draws| == k + 1 && draws[0] == LegendBarAt(canvasWidth, plot)
      invariant forall j :: 0 <= j < k ==> draws[j + 1] == DbTick(j, canvasWidth, plot)
    {
      draws := draws + [DbTick(k, canvasWidth, plot)];
    }
  }

  // ---------------------------------------------------------------- the page

  class Analyzer {
    var audioBuffer: Option<AudioBuffer>
    var isAnalyzing: bool
    var buttonDisabled: bool
    var buttonText: ButtonText
    var canvasWidth: int
    var canvasHeight: int
    /** `canvas.spectrumX/Y/Width/Height`. */
    var plot: Rect
    /** The visible canvas, as the commands painted since it was last cleared. */
    var screen: seq<Draw>
    /** The file whose name the page shows, if any. */
    var fileShown: Option<string>
    /** The windows handed to the analyser so far, in order. */
    var analysedChunks: seq<nat>
    /** The percentages shown on the button after each batch so far. */
    var progressShown: seq<int>
    var alerts: seq<string>

    ghost predicate Valid()
      reads this`plot, this`canvasWidth, this`canvasHeight, this`audioBuffer
    {
      plot == PlotRect(canvasWidth, canvasHeight) &&
      (audioBuffer.Some? ==> ValidBuffer(audioBuffer.value))
    }

    /** Page load: no file, idle button, canvas sized to its container. */
    constructor (clientWidth: int, clientHeight: int)
      ensures Valid()
      ensures audioBuffer.None? && !isAnalyzing && !buttonDisabled && buttonText == AnalyzeLabel
      ensures canvasWidth == clientWidth && canvasHeight == clientHeight && screen == []
      ensures fileShown.None? && analysedChunks == [] && progressShown == [] && alerts == []
    {
      audioBuffer := None;
      isAnalyzing := false;
      buttonDisabled := false;
      buttonText := AnalyzeLabel;
      canvasWidth := clientWidth;
      canvasHeight := clientHeight;
      plot := PlotRect(clientWidth, clientHeight);
      screen := [];
      fileShown := None;
      analysedChunks := [];
      progressShown := [];
      alerts := [];
    }

    /** `resizeCanvas`: the canvas takes its container's size, which clears
        its bitmap, and the plot geometry is recomputed. Nothing is redrawn. */
    method Resize(clientWidth: int, clientHeight: int)
      requires Valid()
      modifies this
      ensures Valid()
      ensures canvasWidth == clientWidth && canvasHeight == clientHeight
      ensures plot == Rect(40, 25, clientWidth - 120, clientHeight - 55)
      ensures screen == []
      ensures audioBuffer == old(audioBuffer) && isAnalyzing == old(isAnalyzing)
      ensures buttonDisabled == old(buttonDisabled) && buttonText == old(buttonText)
      ensures fileShown == old(fileShown) && analysedChunks == old(analysedChunks)
      ensures progressShown == old(progressShown) && alerts == old(alerts)
    {
      canvasWidth := clientWidth;
      canvasHeight := clientHeight;
      plot := PlotRect(clientWidth, clientHeight);
      screen := [];
    }

    /** The state a completed or failed run leaves, from the values the
        history fields held before it. */
    ghost predicate AnalysisOutcome(b: AudioBuffer, analyser: Analyser, chunks0: seq<nat>, progress0: seq<int>, alerts0: seq<string>)
      requires ValidBuffer(b)
      reads this`analysedChunks, this`screen, this`progressShown, this`alerts, this`isAnalyzing,
            this`buttonDisabled, this`buttonText, this`plot, this`canvasWidth, this`canvasHeight
    {
      && RunOutcome(b, analyser, plot, Background(canvasWidth, canvasHeight), Scales(b, plot, canvasWidth, canvasHeight),
                    chunks0, progress0, alerts0, analysedChunks, screen, progressShown, alerts)
      && !isAnalyzing && !buttonDisabled && buttonText == AnalyzeLabel
    }

    /** The batch loop. On return either every window was analysed or
        `failed` holds and the batch starting at `painted` rejected. */
    method RunBatches(b: AudioBuffer, analyser: Analyser) returns (painted: nat, batches: nat, failed: bool)
      requires ValidBuffer(b) && plot == PlotRect(canvasWidth, canvasHeight)
      requires screen == [Background(canvasWidth, canvasHeight)]
      modifies this`analysedChunks, this`screen, this`progressShown, this`buttonText
      ensures painted == StopAt(b, analyser) && batches == BatchCount(painted)
      ensures failed <==> FirstRejected(b, analyser, 0, NumChunks(|b.channel|)).Some?
      ensures BatchesOutcome(b, analyser, plot, Background(canvasWidth, canvasHeight), old(analysedChunks), old(progressShown),
                             analysedChunks, screen, progressShown)
    {
      var done;
      done, batches, failed := BatchLoop(b, analyser);
      if failed {
        LoopFailed(b, analyser, plot, Background(canvasWidth, canvasHeight), old(analysedChunks), old(progressShown),
                   analysedChunks, screen, progressShown, done, batches);
      } else {
        LoopCompleted(b, analyser, plot, Background(canvasWidth, canvasHeight), old(analysedChunks), old(progressShown),
                      analysedChunks, screen, progressShown, done, batches);
      }
      painted := done;
    }

    /** Progressed on this page's current screen and progress. */
    ghost predicate Progressed(b: AudioBuffer, analyser: Analyser, progress0: seq<int>, done: nat, batches: nat)
      requires ValidBuffer(b)
      reads this`plot, this`canvasWidth, this`canvasHeight, this`screen, this`progressShown
    {
      ProgressedView(b, analyser, plot, Background(canvasWidth, canvasHeight), screen, progress0, progressShown, done, batches)
    }

    /** `for (chunkStart = 0; chunkStart < numChunks; chunkStart += batchSize)`,
        left early when a batch rejects. `done` is the number of columns
        painted. */
    method BatchLoop(b: AudioBuffer, analyser: Analyser) returns (done: nat, batches: nat, failed: bool)
      requires ValidBuffer(b) && plot == PlotRect(canvasWidth, canvasHeight)
      requires screen == [Background(canvasWidth, canvasHeight)]
      modifies this`analysedChunks, this`screen, this`progressShown, this`buttonText
      ensures var n := NumChunks(|b.channel|);
        && Progressed(b, analyser, old(progressShown), done, batches)
        && (failed ==> 32 * batches < n &&
                       (exists c: nat :: done <= c < Min(done + BatchSize, n) && Rejected(b, analyser, c)) &&
                       analysedChunks == old(analysedChunks) + Range(0, Min(done + BatchSize, n)))
        && (!failed ==> 32 * batches >= n && analysedChunks == old(analysedChunks) + Range(0, done))
    {
      var n := NumChunks(|b.channel|);
      ghost var progress0 := progressShown;
      ghost var chunks0 := analysedChunks;
      var start := 0;
      done, batches, failed := 0, 0, false;
      while start < n
        invariant start == 32 * batches && done == Min(start, Max(n, 0))
        invariant Progressed(b, analyser, progress0, done, batches)
        invariant analysedChunks == chunks0 + Range(0, done)
      {
        var ok := ProcessBatch(b, analyser, start, batches, progress0, chunks0);
        if !ok {
          failed := true;
          break;
        }
        start, done := start + BatchSize, Min(start + BatchSize, n);
        batches := batches + 1;
      }
    }

    /** One pass of the batch loop: the batch [start, min(start + 32, n)) is
        sent to the analyser; when none of its windows rejects, its columns
        are painted on the off-screen canvas, the off-screen canvas is copied
        to the screen and the progress is shown. The copy covers the whole
        canvas and the off-screen canvas starts with an opaque black fill, so
        the screen shows exactly the off-screen commands. */
    method ProcessBatch(b: AudioBuffer, analyser: Analyser, start: nat, batches: nat,
                        ghost progress0: seq<int>, ghost chunks0: seq<nat>)
      returns (ok: bool)
      requires ValidBuffer(b) && start < NumChunks(|b.channel|) && start == 32 * batches
      requires Progressed(b, analyser, progress0, start, batches)
      requires analysedChunks == chunks0 + Range(0, start)
      modifies this`analysedChunks, this`screen, this`progressShown, this`buttonText
      ensures var end := Min(start + BatchSize, NumChunks(|b.channel|));
        analysedChunks == chunks0 + Range(0, end)
      ensures ok ==> Progressed(b, analyser, progress0, Min(start + BatchSize, NumChunks(|b.channel|)), batches + 1)
      ensures !ok ==> Progressed(b, analyser, progress0, start, batches)
      ensures !ok ==> exists c: nat :: start <= c < Min(start + BatchSize, NumChunks(|b.channel|)) && Rejected(b, analyser, c)
    {
      var n := NumChunks(|b.channel|);
      var batchEnd := Min(start + BatchSize, n);
      ghost var before := analysedChunks;
      var frames;
      frames, ok := RequestBatch(b, analyser, start, batchEnd);
      RangeSplit(0, start, batchEnd);
      AppendStep(before, chunks0, Range(0, start), Range(start, batchEnd), Range(0, batchEnd));
      if ok {
        var cells := PaintBatch(start, n, plot, b.sampleRate, frames);
        var progress := ProgressPercent(batchEnd, n);
        BatchStep(b, analyser, plot, Background(canvasWidth, canvasHeight), screen, progress0, progressShown, start, batches, frames, cells);
        screen := screen + cells;
        buttonText := ProgressLabel(progress);
        progressShown := progressShown + [progress];
      }
    }

    /** The `Promise.all` of one batch: every window of [start, end) is sent
        to the analyser in order; ok is false when any of them rejects. */
    method RequestBatch(b: AudioBuffer, analyser: Analyser, start: nat, end: nat) returns (frames: seq<seq<real>>, ok: bool)
      requires start <= end
      modifies this`analysedChunks
      ensures analysedChunks == old(analysedChunks) + Range(start, end)
      ensures ok <==> (forall c: nat :: start <= c < end ==> !Rejected(b, analyser, c))
      ensures |frames| == end - start
      ensures forall k :: 0 <= k < end - start ==> frames[k] == Frame(b, analyser, start + k)
    {
      frames := [];
      ok := true;
      var i := start;
      while i < end
        invariant start <= i <= end
        invariant analysedChunks == old(analysedChunks) + Range(start, i)
        invariant |frames| == i - start
        invariant ok <==> (forall c: nat :: start <= c < i ==> !Rejected(b, analyser, c))
        invariant forall k :: 0 <= k < i - start ==> frames[k] == Frame(b, analyser, start + k)
      {
        analysedChunks := analysedChunks + [i];
        var result := analyser(Chunk(b.channel, i), b.sampleRate);
        assert result.None? == Rejected(b, analyser, i);
        assert result.GetOr([]) == Frame(b, analyser, i);
        if result.None? {
          ok := false;
        }
        frames := frames + [result.GetOr([])];
        assert Range(start, i + 1) == Range(start, i) + [i];
        i := i + 1;
      }
    }

    /** `analyzeAudio`: a no-op without a buffer or while a run is in
        progress; otherwise a full run, whose `finally` block always
        re-enables the button. */
    method AnalyzeAudio(analyser: Analyser)
      requires Valid()
      modifies this`isAnalyzing, this`buttonDisabled, this`buttonText, this`screen,
               this`analysedChunks, this`progressShown, this`alerts
      ensures Valid()
      ensures old(audioBuffer).None? || old(isAnalyzing) ==> unchanged(this)
      ensures old(audioBuffer).Some? && !old(isAnalyzing) ==>
        AnalysisOutcome(old(audioBuffer).value, analyser, old(analysedChunks), old(progressShown), old(alerts))
      ensures audioBuffer == old(audioBuffer) && fileShown == old(fileShown)
      ensures canvasWidth == old(canvasWidth) && canvasHeight == old(canvasHeight) && plot == old(plot)
    {
      if audioBuffer.None? || isAnalyzing {
        return;
      }
      RunAnalysis(audioBuffer.value, analyser);
    }

    /** The body of `analyzeAudio` once its guard passed: the button is
        disabled, the `try` block runs, and the `finally` block re-enables
        the button. */
    method RunAnalysis(b: AudioBuffer, analyser: Analyser)
      requires ValidBuffer(b) && plot == PlotRect(canvasWidth, canvasHeight)
      modifies this`isAnalyzing, this`buttonDisabled, this`buttonText, this`screen,
               this`analysedChunks, this`progressShown, this`alerts
      ensures AnalysisOutcome(b, analyser, old(analysedChunks), old(progressShown), old(alerts))
    {
      isAnalyzing := true;
      buttonDisabled := true;
      buttonText := AnalyzingLabel;
      TryAnalysis(b, analyser);
      isAnalyzing := false;
      buttonDisabled := false;
      buttonText := AnalyzeLabel;
    }

    /** The `try` block of `analyzeAudio` with its `catch`: the canvas is
        cleared to black, the batches run, and then either the axes and
        legend are drawn or the failure is alerted. */
    method TryAnalysis(b: AudioBuffer, analyser: Analyser)
      requires ValidBuffer(b) && plot == PlotRect(canvasWidth, canvasHeight)
      modifies this`buttonText, this`screen, this`analysedChunks, this`progressShown, this`alerts
      ensures RunOutcome(b, analyser, plot, Background(canvasWidth, canvasHeight), Scales(b, plot, canvasWidth, canvasHeight),
                         old(analysedChunks), old(progressShown), old(alerts), analysedChunks, screen, progressShown, alerts)
    {
      screen := [Background(canvasWidth, canvasHeight)];
      var painted, batches, failed := RunBatches(b, analyser);
      if !failed {
        var scales := DrawScales(b);
        FinishCompleted(b, analyser, plot, Background(canvasWidth, canvasHeight), scales,
                        old(analysedChunks), old(progressShown), alerts, analysedChunks, screen, progressShown);
        screen := screen + scales;
      } else {
        FinishFailed(b, analyser, plot, Background(canvasWidth, canvasHeight), Scales(b, plot, canvasWidth, canvasHeight),
                     old(analysedChunks), old(progressShown), alerts, analysedChunks, screen, progressShown);
        alerts := alerts + [AnalysisFailedAlert];
      }
    }

    /** `drawFrequencyScale`, `drawTimeScale` and `drawDBScale`, in that order. */
    method DrawScales(b: AudioBuffer) returns (draws: seq<Draw>)
      requires ValidBuffer(b)
      ensures draws == Scales(b, plot, canvasWidth, canvasHeight)
    {
      var freqLabels := DrawFrequencyScale(DisplayMaxFreq(b.sampleRate), plot);
      var timeLabels := DrawTimeScale(b.duration, plot, canvasHeight);
      var legend := DrawDbScale(canvasWidth, plot);
      draws := freqLabels + timeLabels + legend;
    }

    /** The canvas keeps its size and plot geometry. */
    twostate predicate CanvasKept()
      reads this`canvasWidth, this`canvasHeight, this`plot
    {
      canvasWidth == old(canvasWidth) && canvasHeight == old(canvasHeight) && plot == old(plot)
    }

    /** No run took place: the screen, the button, the analysed windows and
        the progress shown are as they were. */
    twostate predicate RunUntouched()
      reads this`screen, this`isAnalyzing, this`buttonDisabled, this`buttonText, this`analysedChunks, this`progressShown
    {
      screen == old(screen) && isAnalyzing == old(isAnalyzing) && buttonDisabled == old(buttonDisabled) &&
      buttonText == old(buttonText) && analysedChunks == old(analysedChunks) && progressShown == old(progressShown)
    }

    /** `handleFileSelect`: a non-audio file is ignored; an audio file is
        shown, then decoded; a decoding failure alerts and clears the file
        display but keeps the previous buffer; a decoded buffer replaces the
        current one and a run is started unless one is in progress. The
        canvas is never resized. */
    method HandleFileSelect(file: Option<AudioFile>, decoded: Option<AudioBuffer>, analyser: Analyser)
      requires Valid()
      requires decoded.Some? ==> ValidBuffer(decoded.value)
      modifies this`audioBuffer, this`fileShown, this`alerts
      modifies this`isAnalyzing, this`buttonDisabled, this`buttonText, this`screen, this`analysedChunks, this`progressShown
      ensures Valid() && CanvasKept()
      ensures file.None? || !IsAudio(file.value) ==> unchanged(this)
      ensures file.Some? && IsAudio(file.value) && decoded.None? ==>
        && alerts == old(alerts) + [LoadFailedAlert] && fileShown.None?
        && audioBuffer == old(audioBuffer) && RunUntouched()
      ensures file.Some? && IsAudio(file.value) && decoded.Some? ==>
        && audioBuffer == decoded && fileShown == Some(file.value.name)
        && (old(isAnalyzing) ==> RunUntouched() && alerts == old(alerts))
        && (!old(isAnalyzing) ==> AnalysisOutcome(decoded.value, analyser, old(analysedChunks), old(progressShown), old(alerts)))
    {
      if file.None? || !IsAudio(file.value) {
        return;
      }
      fileShown := Some(file.value.name);
      if decoded.None? {
        alerts := alerts + [LoadFailedAlert];
        fileShown := None;
        return;
      }
      audioBuffer := decoded;
      AnalyzeAudio(analyser);
    }

    /** The drop handler: ignored while a run is in progress; otherwise the
        first dropped file, if any, is handed on when it is audio. */
    method Drop(files: seq<AudioFile>, decoded: Option<AudioBuffer>, analyser: Analyser)
      requires Valid()
      requires decoded.Some? ==> ValidBuffer(decoded.value)
      modifies this`audioBuffer, this`fileShown, this`alerts
      modifies this`isAnalyzing, this`buttonDisabled, this`buttonText, this`screen, this`analysedChunks, this`progressShown
      ensures Valid() && CanvasKept()
      ensures old(isAnalyzing) || files == [] || !IsAudio(files[0]) ==> unchanged(this)
      ensures !old(isAnalyzing) && files != [] && IsAudio(files[0]) && decoded.Some? ==>
        audioBuffer == decoded && fileShown == Some(files[0].name) &&
        AnalysisOutcome(decoded.value, analyser, old(analysedChunks), old(progressShown), old(alerts))
      ensures !old(isAnalyzing) && files != [] && IsAudio(files[0]) && decoded.None? ==>
        alerts == old(alerts) + [LoadFailedAlert] && fileShown.None? && audioBuffer == old(audioBuffer) &&
        RunUntouched()
    {
      if !isAnalyzing {
        var file := if files == [] then None else Some(files[0]);
        if file.Some? && IsAudio(file.value) {
          HandleFileSelect(file, decoded, analyser);
        }
      }
    }

    /** The file input's change handler: the first chosen file is handed on
        whether or not a run is in progress. A decoded file replaces the
        buffer either way; a run follows only when none is in progress, and
        otherwise the canvas, the button, the progress and the alerts stay
        as they are. */
    method PickFiles(files: seq<AudioFile>, decoded: Option<AudioBuffer>, analyser: Analyser)
      requires Valid()
      requires decoded.Some? ==> ValidBuffer(decoded.value)
      modifies this`audioBuffer, this`fileShown, this`alerts
      modifies this`isAnalyzing, this`buttonDisabled, this`buttonText, this`screen, this`analysedChunks, this`progressShown
      ensures Valid() && CanvasKept()
      ensures files == [] || !IsAudio(files[0]) ==> unchanged(this)
      ensures files != [] && IsAudio(files[0]) && decoded.Some? ==>
        && audioBuffer == decoded && fileShown == Some(files[0].name)
        && (old(isAnalyzing) ==> RunUntouched() && alerts == old(alerts))
        && (!old(isAnalyzing) ==> AnalysisOutcome(decoded.value, analyser, old(analysedChunks), old(progressShown), old(alerts)))
      ensures files != [] && IsAudio(files[0]) && decoded.None? ==>
        alerts == old(alerts) + [LoadFailedAlert] && fileShown.None? && audioBuffer == old(audioBuffer) &&
        RunUntouched()
    {
      if |files| > 0 {
        HandleFileSelect(Some(files[0]), decoded, analyser);
      }
    }
  }

  /** A completed run over a channel of at least one window has sent every
      window exactly once and in order, shows 100% after its last batch,
      and every painted cell lies inside the plot. */
  lemma CompletedRunSpec(b: AudioBuffer, analyser: Analyser, plot: Rect)
    requires ValidBuffer(b) && |b.channel| >= ChunkSize + HopSize
    requires FirstRejected(b, analyser, 0, NumChunks(|b.channel|)).None?
    requires plot.width > 0 && plot.height >= 0
    ensures var n := NumChunks(|b.channel|);
      var stop := StopAt(b, analyser);
      var p := ProgressSteps(n, BatchCount(stop));
      stop == n && |p| > 0 && p[|p| - 1] == 100 &&
      (forall k :: 0 <= k < |Spectrum(b, analyser, plot, n, stop)| ==> InsidePlot(Spectrum(b, analyser, plot, n, stop)[k], plot))
  {
    var n := NumChunks(|b.channel|);
    var batches := BatchCount(n);
    assert 32 * (batches - 1) < n <= 32 * batches;
    ProgressSpec(n, batches);
    SpectrumInPlot(b, analyser, plot, n, n);
  }
}
