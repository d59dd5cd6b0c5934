# utility-tools, modelled in Dafny

utility-tools is a small site of browser widgets with a Flask backend. This project models its core and proves what each part promises:

- **Audio spectrum viewer** (`public/audio-quality-check/index.js`). A decoded channel is cut into half-overlapping windows of 4096 samples. The windows go to an analyser 32 at a time. Each returned frame is painted as one column of one-pixel cells, coloured by a five-segment dB colour map. When the run completes, the frequency axis, the time axis and the dB legend are drawn. Modules `Spectrogram` (geometry, colours, ticks, batches) and `AudioAnalyzer` (the page's state and handlers, a class).
- **Media downloader page** (`public/download/index.js`). The URL box asks `/get_formats` for a URL's format combinations, at most once a second. Five selects are rebuilt from the reply, keeping a previous choice when it is still offered. `download` turns the selection into a yt-dlp `format_id` and posts it. Module `FormatPicker`; the page is a class.
- **Movie browser** (`public/movie/index.js`). A catalogue is shown thirty cards at a time as the row is scrolled. A search box filters the catalogue by title. The URL's `id` parameter and the history select a movie. Module `Movies`.
- **BPM calculator** (`index.js`) and **tempo and pitch calculator** (`public/tempo-pitch-calc/index.js`). A queue records the last edited fields. The field named last in the queue is cleared and solved for. Modules `EditQueue` (shared queue, parse test and solve order), `BpmCalc` and `TempoCalc` (classes).
- **QR code page** (`public/qr-code/index.js`). The code is regenerated from the text, the size slider (debounced, snapped to multiples of 32) and the correction level. It is saved under a file name made from the text. Module `QrCode`.
- **Backend request guards** (`security.py`, duplicated in `server.py`):
  - a five-minute sliding-window rate limiter per address;
  - a ban list fed by raw-body patterns and scanner user agents;
  - the WSGI middleware;
  - the CSRF token format.

  Module `Security`, with the class `Guard`.
- **Download routes** (`download.py`, `server.py`):
  - the yt-dlp format selector that `download_media_ytdlp` builds (module `YtDlp`);
  - the replies of `/download_python` and `/download_node`;
  - the progress table filled by the download hook;
  - the event stream that reports the progress table and deletes its entry (module `Server`, class `App`).

Shared modules: `Common` (Option, byte, Range), `Seqs` (substring search, filter, find, a JavaScript `Set` in insertion order) and `Text` (ASCII case mapping, JavaScript `trim`, lower-case hexadecimal).

The widgets' event handlers change page state, so they are methods of classes with `modifies` frames. Each such method is proved against value-level functions whose properties are proved as lemmas. The backend's pure shaping of replies is functions.

Things outside the program are parameters:

- the analyser and the decoder;
- the URL regular expression;
- the fetch replies;
- the yt-dlp outcome;
- clock readings;
- random bytes;
- the text `solve` returns.

Differences between the code and its description:

- `server.py` answers a download error with status 400 only when its message is not the text "none". A message of "none" is read as success, and the missing `filepath` key ends in the route's catch-all 500 (`NodeReply`).
- In `updateFormats` the five selects are emptied (`public/download/index.js:347-351`) before `updateVideoOptions` and `updateAudioOptions` read their values. So after a fresh reply, the "keep the previous selection" branch never fires; it matters only for the listeners (`ReceiveFormats`).
- The non-strict video fallback is formed from `video_quality` before "auto" is replaced by 360, so it asks for `height<=auto` (`FallbackKeepsRawQuality`).
- `/download_python` returns its download-error JSON with Flask's default status 200 (`DownloadPythonSpec`).
- The ban patterns are raw byte literals (`config.py:24-29`, `server.py:27-32`). So `rb'\x16\x03\x01'` is the twelve characters backslash, `x`, `1`, `6`, and so on, not the three bytes of a TLS record header that its comment "SSL/TLS probe" names. A real TLS handshake body passes the raw-body check (`TlsHeaderPasses`), and a body that holds the pattern text is banned (`PatternTextIsMalicious`).
- `download_node` reads `request.json` before its `try`. A body that is not JSON therefore ends the route with Flask's own 400/415 page, after the rate limiter has counted the request (`NotJson`).
- `toFixed` throws for a number of decimal places outside 0..100. The field named last has then already been cleared, and nothing is written (`Solved` with no result).

## Model

| member | source | states |
|---|---|---|
| Common.Range | public/audio-quality-check/index.js:181-184 | the windows lo .. hi-1 a loop visits, in increasing order, and none when hi <= lo |
| Common.RangeSplit | public/audio-quality-check/index.js:181-184 | the windows up to hi are those up to mid followed by those from mid |
| Seqs.ContainsIff | security.py:49-57 | the left-to-right substring search behind Python `in` and JavaScript `includes` holds exactly when the pattern occurs somewhere as a contiguous block |
| Seqs.ContainsAt | security.py:59-64 | a block found at a given position makes the substring test succeed |
| Seqs.Filter | public/movie/index.js:90-92 | `filter` keeps every element that passes and only those, each one from the input, never more than there were |
| Seqs.FilterAppend | public/movie/index.js:90-92 | filtering a list made of two parts gives the two parts' results in order, so `filter` keeps the input's order |
| Seqs.Map | public/download/index.js:416 | `map` keeps the length and applies f element by element |
| Seqs.FindIndex | public/movie/index.js:190 | the index `find` stops at satisfies the predicate and no earlier element does; None exactly when no element does |
| Seqs.FindSpec | public/movie/index.js:190 | `find` returns a satisfying element that no earlier one beats, and nothing exactly when no element satisfies the predicate |
| Seqs.DistinctSnoc | public/download/index.js:503-510 | adding an element to a JavaScript `Set` ignores it when present and appends it otherwise |
| Seqs.DistinctSpec | public/download/index.js:416 | a `Set` built from a list holds every element exactly once and nothing else |
| Seqs.DistinctOrder | public/download/index.js:438 | a `Set` iterates in first-occurrence order |
| Seqs.DistinctOfNoDuplicates | public/download/index.js:438 | a list without repeats is its own `Set` |
| Text.LowerChar | public/movie/index.js:83 | `toLowerCase` maps A-Z to a-z and leaves every other character alone |
| Text.Lower | public/movie/index.js:83 | lower-casing keeps the length and maps each character by LowerChar |
| Text.LowerIdempotent | public/movie/index.js:91 | lower-casing twice changes nothing more |
| Text.TrimStartSpec | public/qr-code/index.js:82 | the leading cut of `trim` removes only whitespace and stops at the first other character |
| Text.TrimEndSpec | public/qr-code/index.js:82 | the trailing cut of `trim` removes only whitespace and stops at the last other character |
| Text.TrimSpec | public/qr-code/index.js:82 | `trim` gives a contiguous slice with no whitespace at either end, cutting away only whitespace |
| Text.TrimAllSpace | public/qr-code/index.js:86-89 | text that is empty or all whitespace trims to the empty string |
| Text.IsLowerHexIff | security.py:74 | a character is among `'0123456789abcdef'` exactly when it is 0-9 or a-f |
| Text.HexDigit | security.py:68 | the digit written for a nibble is a lower-case hex digit that reads back as that nibble |
| Text.HexValue | security.py:74 | a lower-case hex digit has a value below 16 that writes back as the same digit |
| Text.HexValueOfDigit | security.py:68 | reading the digit of a nibble gives the nibble |
| Spectrogram.HopSizeValue | public/audio-quality-check/index.js:160-167 | the hop is 2048, half of the 4096-sample window (50% overlap) |
| Spectrogram.NumChunks | public/audio-quality-check/index.js:160-167 | the window count is negative for fewer than 4096 samples, positive exactly from 6144 samples on, and counts the windows that fit after the first |
| Spectrogram.TenSecondsAt44100 | public/audio-quality-check/index.js:160-167 | ten seconds at 44.1 kHz give 213 windows |
| Spectrogram.JsSliceSpec | public/audio-quality-check/index.js:187-188 | `slice(start, end)` is the block between the bounds clamped to the length, empty when they cross |
| Spectrogram.ChunkInBounds | public/audio-quality-check/index.js:187-191 | every window the loop asks for lies inside the channel and has all 4096 samples |
| Spectrogram.ChunksOverlap | public/audio-quality-check/index.js:160-167 | the second half of each window is the first half of the next |
| Spectrogram.BatchesPartition | public/audio-quality-check/index.js:181-184 | the batches visit every window index exactly once, in increasing order |
| Spectrogram.BatchesShape | public/audio-quality-check/index.js:181-184 | every batch is non-empty, holds at most 32 windows, starts at start + 32k and ends where the next begins |
| Spectrogram.PlotRect | public/audio-quality-check/index.js:127-142 | the plot sits 40 px from the left and 25 px from the top, leaving 80 px on the right and 30 px at the bottom |
| Spectrogram.ColumnXBounds | public/audio-quality-check/index.js:200 | columns never move left as the index grows, and every real column starts inside the plot |
| Spectrogram.ColumnWidth | public/audio-quality-check/index.js:197 | the cell width is the ceiling of plot width over window count |
| Spectrogram.ColumnsCoverPlot | public/audio-quality-check/index.js:197-200 | each column's cells reach the next column, and the last column ends exactly at the plot's right edge |
| Spectrogram.DisplayMaxFreq | public/audio-quality-check/index.js:176-178 | the frequency limit is positive and at most 23 kHz (20 kHz plus 15%) |
| Spectrogram.DisplayMaxFreqOf44100 | public/audio-quality-check/index.js:176-178 | at 44.1 kHz the limit is exactly 23 kHz |
| Spectrogram.BinFrequencyMonotone | public/audio-quality-check/index.js:203 | higher bins have strictly higher frequencies |
| Spectrogram.CutoffBin | public/audio-quality-check/index.js:202-205 | the loop breaks at the first bin above the limit, and every bin before it is within the limit |
| Spectrogram.CutoffIsFinal | public/audio-quality-check/index.js:203-204 | once past the limit every later bin is above it too, so the `break` skips nothing that would be painted |
| Spectrogram.BinYInPlot | public/audio-quality-check/index.js:206 | every painted bin's y lies within the plot's vertical extent |
| Spectrogram.ColorEndpoints | public/audio-quality-check/index.js:277-302 | -120 dB is black and 0 dB is white |
| Spectrogram.ColorInRange | public/audio-quality-check/index.js:277-302 | over -120..0 dB every colour component is within 0..255 |
| Spectrogram.ColorNotClamped | public/audio-quality-check/index.js:277-302 | below -120 dB the colour map's arithmetic extrapolates (blue -255 at -144 dB); the clamp to black is the CSS parser's |
| Spectrogram.LegendStopColors | public/audio-quality-check/index.js:314-321 | the legend's dB stops are white, yellow, red, magenta, blue and black |
| Spectrogram.BinCells | public/audio-quality-check/index.js:202-212 | one cell per bin below the count |
| Spectrogram.BinCellsAt | public/audio-quality-check/index.js:202-212 | cell b is bin b's cell: its y, its width and its colour from bin b's dB value |
| Spectrogram.ColumnCellsSpec | public/audio-quality-check/index.js:198-213 | a column paints the bins below the cut-off in order, each coloured by its own dB value and, on a real plot, inside the plot |
| Spectrogram.FullFrameAt44100 | public/audio-quality-check/index.js:202-205 | at 44.1 kHz all 2048 bins of a frame are painted |
| Spectrogram.FreqTickCount | public/audio-quality-check/index.js:226-230 | the tick loop draws exactly the multiples of the step up to the limit |
| Spectrogram.FreqTicks | public/audio-quality-check/index.js:226-230 | tick k is the tick for k steps |
| Spectrogram.FreqScaleExamples | public/audio-quality-check/index.js:226-230 | at 44.1 kHz the axis reads 0k to 20k in 5k steps; at 32 kHz it reads 0k to 18k in 2.5 kHz steps with halves rounded up |
| Spectrogram.FreqTickInPlot | public/audio-quality-check/index.js:226-230 | the 0 Hz tick sits at the bottom edge and every tick lies within the plot height |
| Spectrogram.FreqTicksAscend | public/audio-quality-check/index.js:226-230 | higher ticks are drawn strictly higher up |
| Spectrogram.FreqScaleInPlot | public/audio-quality-check/index.js:226-230 | the whole frequency axis is inside the plot, starts at the bottom and rises strictly |
| Spectrogram.TimeTicksEvenlySpaced | public/audio-quality-check/index.js:233-239 | the five time ticks sit at 0, 1/4, 1/2, 3/4 and all of the plot width |
| Spectrogram.LegendGradient | public/audio-quality-check/index.js:323-325 | the gradient has one colour stop per legend position |
| Spectrogram.LegendSpec | public/audio-quality-check/index.js:305-342 | the legend runs from white at 0 dB to black at -120 dB, with labels evenly spaced over the plot height |
| Spectrogram.ProgressSteps | public/audio-quality-check/index.js:216-219 | one progress text per batch drawn |
| Spectrogram.ProgressStepAt | public/audio-quality-check/index.js:216-219 | the k-th progress is the rounded percentage of windows done after batch k |
| Spectrogram.ProgressStepsSnoc | public/audio-quality-check/index.js:216-219 | one more batch appends one progress value |
| Spectrogram.ProgressBounds | public/audio-quality-check/index.js:216-219 | the percentage grows with the windows done, stays within 0..100, and is 100 at the end |
| Spectrogram.ProgressSpec | public/audio-quality-check/index.js:216-219 | the shown progress never decreases, stays within 0..100, and the last batch shows 100 |
| AudioAnalyzer.FirstRejected | public/audio-quality-check/index.js:194 | None exactly when no window in the range rejects; otherwise the first window that rejects |
| AudioAnalyzer.StopAt | public/audio-quality-check/index.js:181-220 | the loop stops after the last window, or at the start of the batch holding the first rejected window |
| AudioAnalyzer.SpectrumInPlot | public/audio-quality-check/index.js:198-213 | every cell a run paints lies inside the plot |
| AudioAnalyzer.ShortChannelAnalysesNothing | public/audio-quality-check/index.js:160-181 | with fewer samples than one window, nothing is sent to the analyser and nothing is painted |
| AudioAnalyzer.TimeScale | public/audio-quality-check/index.js:233-239 | five time labels |
| AudioAnalyzer.DbTicks | public/audio-quality-check/index.js:336-339 | six dB labels |
| AudioAnalyzer.SpectrumExtend | public/audio-quality-check/index.js:198-213 | painting the next frames as consecutive columns extends the run's cells by those columns |
| AudioAnalyzer.StopOnFailure | public/audio-quality-check/index.js:194-244 | a loop that left at a rejected batch stopped where StopAt says |
| AudioAnalyzer.StopOnSuccess | public/audio-quality-check/index.js:181-220 | a loop that ran out of windows analysed every one of them |
| AudioAnalyzer.LoopFailed | public/audio-quality-check/index.js:181-220 | a failed loop sent every window up to the end of the rejected batch, and the screen shows the columns before it |
| AudioAnalyzer.LoopCompleted | public/audio-quality-check/index.js:181-220 | a completed loop sent every window once, in order, and painted every column |
| AudioAnalyzer.BatchStep | public/audio-quality-check/index.js:183-219 | a batch with no rejection adds its columns to the screen and one progress value |
| AudioAnalyzer.ScreenStep | public/audio-quality-check/index.js:197-213 | the screen after a batch is the background plus the columns so far |
| AudioAnalyzer.ProgressStep | public/audio-quality-check/index.js:216-219 | a batch appends its rounded percentage |
| AudioAnalyzer.FinishCompleted | public/audio-quality-check/index.js:226-242 | a run with no rejection ends by drawing the scales |
| AudioAnalyzer.FinishFailed | public/audio-quality-check/index.js:244-247 | a run that rejected ends with one alert and no scales |
| AudioAnalyzer.PaintColumn | public/audio-quality-check/index.js:202-212 | the bin loop with its `break` paints exactly the column's cells |
| AudioAnalyzer.PaintBatch | public/audio-quality-check/index.js:198-213 | each frame of a batch is painted as the column chunkStart + index |
| AudioAnalyzer.DrawFrequencyScale | public/audio-quality-check/index.js:226-230 | the tick loop draws the frequency axis |
| AudioAnalyzer.DrawTimeScale | public/audio-quality-check/index.js:233-239 | one label per time point |
| AudioAnalyzer.DrawDbScale | public/audio-quality-check/index.js:305-342 | the gradient bar, then one label per stop |
| AudioAnalyzer.Analyzer.constructor | public/audio-quality-check/index.js:11-56 | the page loads with no file, an idle button and the canvas at its container's size |
| AudioAnalyzer.Analyzer.Resize | public/audio-quality-check/index.js:127-142 | the canvas takes the new size and is cleared, the plot geometry is recomputed, and nothing else changes |
| AudioAnalyzer.Analyzer.RunBatches | public/audio-quality-check/index.js:181-220 | the loop paints up to StopAt, reports failure exactly when a window rejects, and leaves the batch outcome |
| AudioAnalyzer.Analyzer.BatchLoop | public/audio-quality-check/index.js:181-220 | the `for` loop over batches, left early at a rejected batch, leaves the columns and progress of every batch before it |
| AudioAnalyzer.Analyzer.ProcessBatch | public/audio-quality-check/index.js:183-219 | one batch is sent; on success its columns are painted and copied to the screen and the progress shown; on failure some window of it rejected |
| AudioAnalyzer.Analyzer.RequestBatch | public/audio-quality-check/index.js:187-194 | every window of the batch is sent in order; the batch succeeds exactly when none rejects |
| AudioAnalyzer.Analyzer.AnalyzeAudio | public/audio-quality-check/index.js:148-252 | nothing happens without a buffer or during a run; otherwise a full run, with the button re-enabled afterwards |
| AudioAnalyzer.Analyzer.RunAnalysis | public/audio-quality-check/index.js:152-251 | the button is disabled, the run happens, and the button is re-enabled in `finally` |
| AudioAnalyzer.Analyzer.TryAnalysis | public/audio-quality-check/index.js:157-247 | the canvas is cleared, the batches run, then either the scales are drawn or the failure alerted |
| AudioAnalyzer.Analyzer.DrawScales | public/audio-quality-check/index.js:226-242 | the frequency axis, the time axis and the dB legend, in that order |
| AudioAnalyzer.Analyzer.HandleFileSelect | public/audio-quality-check/index.js:102-124 | a non-audio file is ignored; a decoding failure alerts and clears the file name but keeps the old buffer and leaves the run and canvas untouched; a decoded buffer replaces it and starts a run; the canvas size and plot never change |
| AudioAnalyzer.Analyzer.Drop | public/audio-quality-check/index.js:38-48 | a drop is ignored during a run; otherwise the first file is handed on when it is audio, with the canvas kept |
| AudioAnalyzer.Analyzer.PickFiles | public/audio-quality-check/index.js:51-55 | the first chosen file is handed on whether or not a run is in progress: a decoded file replaces the buffer, and a run with AnalysisOutcome follows only when none is in progress, the canvas, progress and alerts staying otherwise; a decoding failure alerts and keeps the old buffer and the run state; the canvas size and plot never change |
| AudioAnalyzer.CompletedRunSpec | public/audio-quality-check/index.js:148-252 | a completed run sends every window once, in order, shows 100% after its last batch, and paints only inside the plot |
| FormatPicker.Rebuild | public/download/index.js:419-428 | a rebuilt select offers exactly the new values, and its choice is one of them when there are any |
| FormatPicker.RebuildKeeps | public/download/index.js:424-425 | the previous value stays selected exactly when it is still offered; otherwise the first option is shown |
| FormatPicker.FillSelect | public/download/index.js:440-449 | emptying the select and adding an option per value (marking the kept one) gives Rebuild |
| FormatPicker.FindAudio | public/download/index.js:44-47 | None exactly when no audio combination matches; otherwise the first that matches |
| FormatPicker.FindVideo | public/download/index.js:56-60 | None exactly when no video combination matches height, format and codec; otherwise the first that does |
| FormatPicker.AudioModeId | public/download/index.js:42-50 | audio mode sends the id of the first matching audio combination |
| FormatPicker.VideoAndAudioId | public/download/index.js:68-71 | a video and an audio match give "video id+audio id" |
| FormatPicker.VideoOnlyId | public/download/index.js:72-75 | a video match without an audio match gives the video id alone |
| FormatPicker.NoFormatId | public/download/index.js:41-77 | no id exactly when, in audio mode, no audio combination matches, or, in other modes, no video combination matches |
| FormatPicker.JoinedIdSendable | public/download/index.js:79 | a joined "v+a" id always passes the `!format_id` test |
| FormatPicker.InsertMultiset | public/download/index.js:420 | inserting into the sorted list adds exactly that value |
| FormatPicker.SortMultiset | public/download/index.js:420 | `sort((a, b) => b - a)` is a permutation |
| FormatPicker.InsertStrict | public/download/index.js:420 | inserting a new value keeps the list strictly descending |
| FormatPicker.SortStrict | public/download/index.js:420 | sorting distinct values gives them strictly from high to low |
| FormatPicker.ResolutionsSpec | public/download/index.js:416-420 | the resolutions are strictly descending and hold exactly the heights of the combinations |
| FormatPicker.CollectSnoc | public/download/index.js:435-438 | `filter` then `map` over one more element adds its property when it is kept |
| FormatPicker.CollectMember | public/download/index.js:435-438 | a property is collected exactly when some kept element has it |
| FormatPicker.CollectNone | public/download/index.js:461-467 | no kept element gives nothing |
| FormatPicker.DistinctMember | public/download/index.js:438 | the `Set` holds exactly the list's elements |
| FormatPicker.DistinctCollectSnoc | public/download/index.js:438 | one more element adds its property to the `Set` exactly when that property is new |
| FormatPicker.FormatsAtSpec | public/download/index.js:431-449 | the format options at a height list each format found at that height once, and nothing else |
| FormatPicker.CodecsAtSpec | public/download/index.js:456-478 | the codec options list each codec found at that height and format once, and nothing else |
| FormatPicker.CodecMapKeys | public/download/index.js:503-510 | a format is a key of `formatCodecMap` exactly when some combination has it |
| FormatPicker.CodecMapSpec | public/download/index.js:503-510 | a format's codec list holds exactly the codecs that occur with it, each once; an absent format gets none (`|| new Set()`) |
| FormatPicker.CodecMapSnoc | public/download/index.js:506-509 | one more combination adds its codec to its format's entry, creating the entry on first sight |
| FormatPicker.CollectAudio | public/download/index.js:503-510 | the `forEach` loop builds the format set, the codec set and the map CodecMap |
| FormatPicker.NextMode | public/download/index.js:355-366 | no video but some audio switches to audio; no audio but some video switches to auto; nothing at all is an error; otherwise the mode stays |
| FormatPicker.SpacedApart | public/download/index.js:308-312 | in the page's log of request times, any two requests are a second apart for each request from one to the other |
| FormatPicker.Picker.constructor | public/download/index.js:275-296 | the page loads with empty selects, no combinations, an idle button and no requests |
| FormatPicker.Picker.ShowError | public/download/index.js:205-219 | the message is shown and the button re-enabled with text "download" |
| FormatPicker.Picker.Download | public/download/index.js:15-100 | an invalid URL shows an error; a missing or empty format id shows the "Could not find matching format" error; otherwise the button is disabled and the request with SelectedFormatId is sent |
| FormatPicker.Picker.UrlInput | public/download/index.js:549-554 | the trimmed text goes to `updateFormats` when not empty |
| FormatPicker.Picker.RequestFormats | public/download/index.js:298-328 | a request is sent exactly for a non-empty valid URL a second after the last one; it records the time and shows "checking url" |
| FormatPicker.Picker.ReceiveFormats | public/download/index.js:329-402 | a failed or empty reply shows the error with every select empty and the listeners and mode unchanged; otherwise the selects are emptied, the mode switched and the lists rebuilt; the button is re-enabled in every case |
| FormatPicker.Picker.ResetButton | public/download/index.js:396-402 | the button is re-enabled with text "download" |
| FormatPicker.Picker.ClearSelects | public/download/index.js:347-351 | the five selects are empty |
| FormatPicker.Picker.ApplyFormats | public/download/index.js:353-377 | the mode is switched per NextMode, and each non-empty list rebuilds its selects; with both lists empty the listeners stay as they were |
| FormatPicker.Picker.UpdateVideoOptions | public/download/index.js:405-487 | the combinations are stored, the resolutions rebuilt keeping the given quality, and the format and codec selects rebuilt keeping their old values when still offered |
| FormatPicker.Picker.UpdateVideoFormatOptions | public/download/index.js:431-453 | the format select offers FormatsAt for the selected height, then the codecs are rebuilt |
| FormatPicker.Picker.UpdateVideoCodecOptions | public/download/index.js:456-479 | the codec select offers CodecsAt for the selected height and format |
| FormatPicker.Picker.UpdateAudioOptions | public/download/index.js:489-546 | the combinations are stored, the format select rebuilt, and the codecs filled from the selected format's entry |
| FormatPicker.Picker.UpdateAudioCodecOptions | public/download/index.js:525-539 | the codec select offers the selected format's codecs, or none |
| FormatPicker.Picker.ChooseQuality | public/download/index.js:485 | picking a resolution selects it and re-runs the last format listener |
| FormatPicker.Picker.ChooseVideoFormat | public/download/index.js:486 | picking a format selects it and rebuilds the codecs |
| FormatPicker.Picker.ChooseAudioFormat | public/download/index.js:545 | picking an audio format selects it and refills the codecs |
| FormatPicker.Picker.ChooseMode | public/download/index.js:556-606 | the mode changes and nothing else does |
| Movies.Shown | public/movie/index.js:42-51 | after `page` pages the row shows the first min(30·page, n) movies of the list |
| Movies.PageStep | public/movie/index.js:42-66 | appending the next page's movies gives the cards of one more page |
| Movies.ShownComplete | public/movie/index.js:45-49 | once every movie is shown, another page adds nothing |
| Movies.SearchSpec | public/movie/index.js:90-92 | a movie is a result exactly when it is in the catalogue and its lower-cased title contains the lower-cased query; results keep catalogue order |
| Movies.EmptyQueryKeepsAll | public/movie/index.js:81-95 | an empty query keeps the whole catalogue |
| Movies.FindByIdSpec | public/movie/index.js:190 | the lookup finds the first movie with that id, and nothing exactly when none has it |
| Movies.MovieBrowser.constructor | public/movie/index.js:1-8 | the page starts with no movies, page 0, no cards and no history |
| Movies.MovieBrowser.DisplayMovies | public/movie/index.js:30-68 | nothing while loading or, apart from an initial load, once all are shown; an initial load restarts at page 0; then the next page is appended and counted, or loading is marked complete |
| Movies.MovieBrowser.Scroll | public/movie/index.js:72-79 | within 300 px of the end the row shows Shown of one page more and the page advances, or, with every movie shown, all-loaded is set with the row unchanged; farther away nothing changes |
| Movies.MovieBrowser.Search | public/movie/index.js:81-95 | the list becomes SearchResults of the whole catalogue and its first page is shown afresh |
| Movies.PlayerSrc | public/movie/index.js:108 | with no config object the player source cannot be built (the TypeError); with a base URL it is that URL followed by the id |
| Movies.MovieBrowser.LoadMovies | public/movie/index.js:11-28 | an unreadable file changes nothing, config included, and yields []; otherwise the catalogue, list and config are stored; a missing player URL then shows nothing new and yields [], keeping the page invariant when nothing was shown before; otherwise the first page is shown and the catalogue returned |
| Movies.MovieBrowser.SelectMovie | public/movie/index.js:97-128 | the widget shows the movie; with no config object the handler stops there; otherwise the player source is PlayerSrc of the config and the id, the id is pushed and the search text cleared |
| Movies.MovieBrowser.OpenFromUrl | public/movie/index.js:186-195 | a non-empty id selects the first loaded movie with it, if any, pushing the id, setting PlayerSrc and clearing the search text when a config object exists, and changing neither the player nor the search without one; otherwise nothing changes, player and search text included |
| Movies.MovieBrowser.PopState | public/movie/index.js:199-211 | a non-empty id selects the first catalogue movie with it, if any, pushing the id, setting PlayerSrc and clearing the search text when a config object exists, and changing neither the player nor the search without one; an unknown id changes nothing; no id hides the widget and changes nothing else |
| EditQueue.MoveToFrontFront | index.js:53-62 | after `updateLastEdited(x)`, x is at the front and nowhere else, and the queue stays at most three long |
| EditQueue.MoveToFrontOfThree | index.js:53-62 | on three distinct entries the others keep their order, and a new entry pushes the last one out |
| EditQueue.QueuePermutation | index.js:53-62 | a queue of the three fields stays a permutation of them, and the field it names last is never the one just edited |
| EditQueue.SwapFrontIsQueue | index.js:53-62 | moving the middle field to the front keeps a queue of the three fields |
| EditQueue.RotateIsQueue | index.js:53-62 | moving the last field to the front keeps a queue of the three fields |
| EditQueue.EveryFieldQueued | index.js:47-51 | three distinct fields are all the fields |
| EditQueue.InitialQueueIsQueue | public/tempo-pitch-calc/index.js:63-67 | both the initial queue and the notation queue hold each field once |
| EditQueue.EmptyIsNaN | index.js:71 | a cleared field parses as NaN |
| EditQueue.SolveFor | index.js:3-21 | `solve` solves for old-bpm when it is NaN, else the pitch, else new-bpm; nothing when all three are numbers |
| EditQueue.WriteTargetIsSolved | index.js:23-44 | `calculate` writes into the field `solve` solved for, and writes nothing exactly when the result is "NaN" or there was no unknown |
| EditQueue.Inputs.Set | index.js:36-42 | setting a field changes that field only |
| EditQueue.Solved | index.js:32-43 | the result lands in the unknown field and nowhere else, unless it is "NaN" or there is no unknown |
| EditQueue.ClearedIsSolvable | index.js:70-74 | once a field is cleared there is always an unknown to solve for |
| BpmCalc.Calculator.constructor | index.js:47-51 | empty fields and the queue old-bpm, pitch, new-bpm |
| BpmCalc.Calculator.UpdateLastEdited | index.js:53-62 | the queue becomes MoveToFront of the old queue |
| BpmCalc.Calculator.Calculate | index.js:23-44 | the fields become Solved by the result: the text in the solved-for field unless it is "NaN", and nothing written when `solve` throws |
| BpmCalc.Calculator.ClearLast | index.js:70-72 | the field named last in the queue is emptied |
| BpmCalc.Calculator.HandleInput | index.js:64-75 | the edited field moves to the front, the field now last (never the edited one) is cleared and solved for |
| BpmCalc.Calculator.HandleDecimalPlaces | index.js:77-84 | the queue stays; its last field is cleared and there is always an unknown to solve |
| TempoCalc.CentsRoundTrip | public/tempo-pitch-calc/index.js:6-25 | converting a pitch to cents and back gives it unchanged, in each notation |
| TempoCalc.PitchLabel | public/tempo-pitch-calc/index.js:113-121 | the label becomes the notation's name when it is semitones, cents or ratio, and otherwise stays |
| TempoCalc.Calculator.constructor | public/tempo-pitch-calc/index.js:63-67 | empty fields, the initial queue and the page's notation and label |
| TempoCalc.Calculator.UpdateLastEdited | public/tempo-pitch-calc/index.js:69-78 | the queue becomes MoveToFront of the old queue |
| TempoCalc.Calculator.Calculate | public/tempo-pitch-calc/index.js:38-60 | the fields become Solved by the result: the text in the solved-for field unless it is "NaN", and nothing written when `solve` throws |
| TempoCalc.Calculator.ClearLast | public/tempo-pitch-calc/index.js:86-88 | the field named last in the queue is emptied |
| TempoCalc.Calculator.HandleInput | public/tempo-pitch-calc/index.js:80-91 | the edited field moves to the front, the field now last (never the edited one) is cleared and solved for |
| TempoCalc.Calculator.HandleDecimalPlaces | public/tempo-pitch-calc/index.js:93-100 | the queue stays; its last field is cleared and solved for again |
| TempoCalc.Calculator.HandleNotation | public/tempo-pitch-calc/index.js:102-128 | the queue becomes old-bpm, new-bpm, pitch, the label follows the notation, and the pitch is cleared and solved for |
| QrCode.Dashed | public/qr-code/index.js:161 | every character other than an ASCII letter or digit becomes a dash, the rest kept where it stood |
| QrCode.SanitizedNameSpec | public/qr-code/index.js:156-165 | blank text gives "qr-code"; otherwise the name is the trimmed text dashed and lower-cased, cut to 50, holding only a-z, 0-9 and dashes |
| QrCode.DownloadName | public/qr-code/index.js:169 | the file name is the sanitised name plus ".png", at most 54 characters |
| QrCode.Snap | public/qr-code/index.js:69-77 | the snapped size is a multiple of 32 within 16 of the value (halves rounded up) |
| QrCode.SnapIdempotent | public/qr-code/index.js:72 | snapping a snapped size changes nothing |
| QrCode.QrPage.constructor | public/qr-code/index.js:48-50 | no code yet, last size 128, nothing pending and no error |
| QrCode.QrPage.Generate | public/qr-code/index.js:81-109 | blank text shows the error and keeps the code; otherwise the code is drawn from the trimmed text, or emptied with the library's error shown |
| QrCode.QrPage.EditText | public/qr-code/index.js:53 | the text changes and the code is Regenerated from it: the blank-text error with the old code, the code with no error, or an empty container with the library's error |
| QrCode.QrPage.ChooseCorrection | public/qr-code/index.js:79 | the correction level changes and the code is Regenerated with it |
| QrCode.RegeneratedShowsCodeOrError | public/qr-code/index.js:81-109 | after a regeneration the page shows a code or an error; no error means the code of the current non-blank text |
| QrCode.QrPage.SliderInput | public/qr-code/index.js:55-67 | the size follows the slider; a change of 8 px or more from the last size schedules a regeneration replacing any pending one |
| QrCode.QrPage.RunPending | public/qr-code/index.js:62-65 | without a scheduled regeneration nothing changes; with one, the code is Regenerated in all three outcomes and the scheduled size becomes the last size |
| QrCode.QrPage.SliderRelease | public/qr-code/index.js:69-77 | the size snaps to a multiple of 32, the code is Regenerated at it in all three outcomes, and the snapped size is the last size |
| QrCode.QrPage.Save | public/qr-code/index.js:147-175 | without a code an error is shown; otherwise the image is offered as DownloadName of the text |
| Security.RecentSpec | security.py:20-34 | the kept timestamps are exactly those younger than five minutes, never more than before |
| Security.Recorded | security.py:20-34 | the new history ends with now and holds only timestamps within the window |
| Security.RecordedCount | security.py:20-34 | a request is too many exactly when ten earlier ones fall within the window |
| Security.VerifyCsrfToken | security.py:70-74 | a token passes exactly when it has 64 characters, all lower-case hex digits |
| Security.HexEncode | security.py:66-68 | two characters per byte |
| Security.HexEncodeDigits | security.py:66-68 | the encoding holds only lower-case hex digits |
| Security.Nibble | security.py:74 | a hex digit's value is below 16 and agrees with HexValue on lower-case digits |
| Security.HexRoundTrip | security.py:66-68 | decoding the hex digits of any bytes gives the bytes back |
| Security.EncodeStep | security.py:66-68 | decoding an encoding takes its first byte, then the rest |
| Security.ByteDigits | security.py:66-68 | a byte's two digits are its high and low nibble and spell the byte |
| Security.DecodeStep | security.py:66-68 | decoding takes the first digit pair, then the rest |
| Security.GeneratedTokenVerifies | security.py:66-74 | a token from 32 random bytes always verifies, and different bytes give different tokens |
| Security.CheckSuspiciousHeaders | security.py:59-64 | the headers are suspicious exactly when a scanner's name occurs in them, lower-cased |
| Security.Guard.constructor | security.py:17-47 | no request history, and the stored addresses banned |
| Security.Guard.LoadBannedIps | security.py:41-47 | the stored addresses join the ban set |
| Security.Guard.IsRateLimited | security.py:20-34 | a banned address is limited with its history untouched; otherwise the history becomes Recorded and the request is limited beyond ten |
| Security.Guard.CheckRawRequest | security.py:49-57 | malicious exactly when one of the raw pattern texts occurs in the body, and then the address is banned; otherwise the bans are unchanged |
| Security.MaliciousNeedsBackslashOrC | config.py:24-29 | a body is malicious only if it holds a backslash or a `C`, as every pattern but `Cookie:` starts with a backslash |
| Security.TlsHeaderPasses | config.py:24-29 | a body starting with the TLS record header bytes 16 03 01 followed by small bytes is not malicious |
| Security.PatternTextIsMalicious | config.py:24-29 | a body holding any pattern text anywhere is malicious |
| Security.Guard.Middleware | security.py:81-102 | a banned address is refused before the body is read; an unreadable or malicious body bans and refuses; any other body is passed on unchanged |
| Security.RateLimitKeepsWindow | security.py:20-34 | after a request, every kept timestamp of the address is within the window and other addresses are untouched |
| YtDlp.FormatSelectorSpec | download.py:15-67 | a selector exists exactly for "audio" and "auto"; it asks for the requested or default container and height, and only a non-strict request appends the fallbacks |
| YtDlp.StrictIsPrefix | download.py:51-65 | a strict selector is a proper prefix of the non-strict one |
| YtDlp.OnlyTrueIsStrict | download.py:16-19 | only the text "true" is strict; every other text behaves like "false" |
| YtDlp.AutoDefaults | download.py:44-49 | "auto" means 360 in strict selectors, and mp3 and mp4 in every selector |
| YtDlp.FallbackKeepsRawQuality | download.py:38-49 | a non-strict auto request with quality "auto" has the fallback `height<=auto`, unlike the same request with 360 |
| YtDlp.BasenameSpec | download.py:84-96 | the base name ends the path, holds no '/', and is the whole path or follows a '/' |
| YtDlp.DownloadPythonSpec | download.py:79-113 | the route fails exactly for an unknown mode or a crash, returns a download error with status 200, and otherwise names the file by its base name |
| Server.NodeReplySpec | server.py:129-158 | the file is streamed exactly for a download in a known mode; 400 carries the error message exactly when it is not "none"; every other error is the catch-all 500 |
| Server.NodeMatchesPython | server.py:181-248 | the node route answers as the stand-alone route does, with download errors made 400 and every failure the catch-all 500 |
| Server.PercentBounds | server.py:69-79 | a count within the total gives 0..100 percent, and 100 exactly when the file is complete |
| Server.HookedBounds | server.py:66-79 | from the route's initial 0, hook calls whose byte counts stay within their totals leave the entry within 0..100, and exactly 100 when the last call reports the whole file |
| Server.App.constructor | server.py:21-41 | the stored bans loaded, no history and no progress |
| Server.App.CheckMaliciousRequests | server.py:306-349 | refused exactly for a banned address, a malicious body or a scanner header; the last two ban the address |
| Server.App.DownloadNode | server.py:181-248 | a banned address gets 403 with nothing changed; otherwise the request is counted, then 429 over the limit, Flask's NotJson for a body that is not JSON, or NodeReply with the progress entry opened at 0 and then, once a format selector exists, left as the download's hook calls set it (Hooked) |
| Server.App.HandleDownload | server.py:181-349 | a banned address is refused by the middleware with nothing changed; an unreadable or malicious body is refused and banned; a stored ban or scanner headers get 403 and a ban; past every guard the request is counted and answered 429, NotJson or NodeReply with the progress entry as DownloadNode leaves it; a file is streamed only past every guard and for a real download |
| Server.App.ProgressHook | server.py:69-79 | while downloading with a positive total, the entry becomes the downloaded share; any other call changes nothing, as HookStep states |
| Server.App.StreamProgress | server.py:160-179 | each event is the current entry (0 when missing); the stream ends exactly at 100 or more and then deletes the entry; an unfinished stream leaves the entry as the last event showed it; other entries are untouched |

## Left out

- Styling: the DOM styling, the theme and menu handlers, the theme cookies, the settings panel, `copyQRCode`, and the show/hide styling of `updateFormatSelectorsVisibility`. They render only; the model keeps the values they show.
- The network: `fetch`, the CSRF token request, and the `/download_node` response handling of the downloader page. Replies and outcomes are parameters.
- The URL regular expression of `download` and `updateFormats`: it is the parameter `validUrl`.
- The FFT (`processAudioChunk` with its `OfflineAudioContext`) and `decodeAudioData`: both are parameters, given as the frame or the rejection per window and the decoded buffer or a failure. The analyser is a function of a window's samples and the sample rate, not of its index, so two equal windows get the same frame.
- Silent frames: a bin of -Infinity dB makes `getColorForDecibel` produce an invalid `fillStyle`, which the canvas ignores, so the previous colour is reused. Frames here are finite reals, so this case is not represented.
- Floating point: pixel and colour arithmetic is over exact reals. `Math.floor`, `Math.ceil` and `Math.round` are rounded explicitly.
- `solve`'s `2 **`, `Math.log2` and `toFixed`: the text `solve` returns, or its throwing, is a parameter of `Calculate`. `log2` and `exp2` are parameters of the notation conversion.
- `HandleNotation`: for a negative ratio pitch, `solve`'s converted pitch is NaN while the field's text parses. The model takes the field's NaN-ness as the solved-for test, so in that case the written field follows `calculate`'s own chain. A zero ratio gives -Infinity, a number, so both tests agree there.
- Concurrency: async timing, overlapping promises and the slider's zero-delay timer. On the server, a download's hook calls are a parameter of `DownloadNode` applied in order, and the progress stream polling beside it sees the entries `StreamProgress` is given; their interleaving is not modelled. A run, a batch and a regeneration each complete before the next event; the timer is `pending` and `RunPending`.
- The file metadata texts of the audio page (format, sample rate, channels, duration, bit rate), the label formatting with `toFixed`, and the red flash of the downloader's error widget.
- `save_banned_ips`, the ban file itself, and all logging. Stored bans are the parameter `stored`.
- File streaming in 64 KB blocks, the headers of the streamed response, and the deletion of the file once it is streamed in `download_node`. A streamed file is `Attachment` with its name.
- `Server.App.StreamProgress`: the stream stops after its last update, where the route keeps polling every half second. The JSON text of each event is not modelled.
- The middleware's refusal is `Refused`: `jsonify` is called outside an application context, and its exact WSGI response is not modelled.
- `/get_formats` and `/get_csrf_token`, and every server route that only serves a static page.
- `YtDlp.DownloadRequest`: a JSON field that is missing (Python `None`) is not modelled; every field is a string. A body that is not JSON at all is modelled (`req` None).
- Text: strings are sequences of Unicode scalar values. JavaScript's `length`, `slice` and regular expressions work on UTF-16 code units, so names holding characters outside the Basic Multilingual Plane are cut at other places.
- `Text.Lower`: lower-casing is ASCII only. JavaScript `toLowerCase` and Python `lower` also map other scripts.
- `QrCode.QrPage.SliderInput`: the slider `min`/`max` clamping belongs to the browser and is not modelled.
- `QrCode.QrPage.SliderRelease`: writing the snapped value back to the slider (`qrSize.value = roundedValue`) is also clamped by the browser to the slider's range; `size == Snap(old(size))` is what happens while the snapped value lies inside that range.
