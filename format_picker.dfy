/** The downloader page's format picker: the combinations of format ids
    that the server offers for a URL, the select elements rebuilt from
    them, the format id sent with a download, the mode switch and the
    one-second debounce of format requests.

    A `<select>` is its option values and the value it shows. The URL
    regular expression is a parameter; the fetches are modelled by the
    request they send and the reply they receive. */
module FormatPicker {
  import opened Common
  import opened Seqs
  import opened Text

  /** One entry of `video_combinations`. */
  datatype VideoCombo = VideoCombo(formatId: string, height: int, format: string, codec: string)

  /** One entry of `audio_combinations`. */
  datatype AudioCombo = AudioCombo(formatId: string, format: string, codec: string)

  /** A `<select>`: its options' values in order, and the selected one
      (None when it has no option, where `select.value` reads ""). The
      resolution select holds the heights themselves: an option's value
      is the decimal text of a height and `parseInt` reads it back. */
  datatype Select<T> = Select(options: seq<T>, selected: Option<T>)

  const EmptySelect: Select<string> := Select([], None)

  /** `select.value` of a select of strings. */
  function Value(s: Select<string>): string {
    s.selected.GetOr("")
  }

  /** A select as a browser keeps it: a choice exactly when there are
      options, and the choice is one of them. */
  ghost predicate WellFormed<T>(s: Select<T>) {
    (s.selected.None? <==> s.options == []) &&
    (s.selected.Some? ==> s.selected.value in s.options)
  }

  // ---------------------------------------------------------------- rebuilding a select

  /** A select emptied and refilled with `values`, where the option equal
      to `keep` is marked selected; when none is, the browser selects the
      first option. */
  function Rebuild<T(==)>(values: seq<T>, keep: Option<T>): (s: Select<T>)
    ensures s.options == values && WellFormed(s)
  {
    if keep.Some? && keep.value in values then Select(values, keep)
    else if values == [] then Select([], None)
    else Select(values, Some(values[0]))
  }

  /** A previous value stays selected exactly when it is among the new
      options; otherwise the first option (if any) is shown. */
  lemma RebuildKeeps<T>(values: seq<T>, v: T)
    ensures Rebuild(values, Some(v)).selected == Some(v) <==> v in values
    ensures v !in values && values != [] ==> Rebuild(values, Some(v)).selected == Some(values[0])
  {
  }

  /** `select.innerHTML = ''` followed by the `forEach` that appends one
      option per value and marks the one equal to the current value. */
  method FillSelect<T(==)>(values: seq<T>, keep: Option<T>) returns (s: Select<T>)
    ensures s == Rebuild(values, keep)
  {
    var options: seq<T> := [];
    var marked: Option<T> := None;
    for i := 0 to |values|
      invariant options == values[..i]
      invariant marked == if keep.Some? && keep.value in values[..i] then keep else None
    {
      assert values[..i + 1] == values[..i] + [values[i]];
      options := options + [values[i]];
      if keep == Some(values[i]) {
        marked := keep;
      }
    }
    assert values[..|values|] == values;
    if marked.Some? {
      s := Select(options, marked);
    } else if options == [] {
      s := Select([], None);
    } else {
      s := Select(options, Some(options[0]));
    }
  }

  // ---------------------------------------------------------------- finding the selected format id

  predicate AudioMatches(c: AudioCombo, format: string, codec: string) {
    c.format == format && c.codec == codec
  }

  /** `combo.height === parseInt(quality)`: never true when the quality
      does not parse (NaN). */
  predicate VideoMatches(c: VideoCombo, height: Option<int>, format: string, codec: string) {
    height == Some(c.height) && c.format == format && c.codec == codec
  }

  /** `audioCombinations.find(...)` on the selected audio format and codec. */
  function FindAudio(combos: seq<AudioCombo>, format: string, codec: string): (r: Option<AudioCombo>)
    ensures r.None? <==> forall k :: 0 <= k < |combos| ==> !AudioMatches(combos[k], format, codec)
    ensures r.Some? ==> exists i :: 0 <= i < |combos| && combos[i] == r.value && AudioMatches(combos[i], format, codec) &&
                                    forall k :: 0 <= k < i ==> !AudioMatches(combos[k], format, codec)
  {
    var p := (c: AudioCombo) => AudioMatches(c, format, codec);
    FindSpec(combos, p);
    Find(combos, p)
  }

  /** `videoCombinations.find(...)` on the selected height, format and codec. */
  function FindVideo(combos: seq<VideoCombo>, height: Option<int>, format: string, codec: string): (r: Option<VideoCombo>)
    ensures r.None? <==> forall k :: 0 <= k < |combos| ==> !VideoMatches(combos[k], height, format, codec)
    ensures r.Some? ==> exists i :: 0 <= i < |combos| && combos[i] == r.value && VideoMatches(combos[i], height, format, codec) &&
                                    forall k :: 0 <= k < i ==> !VideoMatches(combos[k], height, format, codec)
  {
    var p := (c: VideoCombo) => VideoMatches(c, height, format, codec);
    FindSpec(combos, p);
    Find(combos, p)
  }

  /** The controls `download` reads. */
  datatype Choice = Choice(mode: string, quality: Option<int>, videoFormat: string, videoCodec: string,
                           audioFormat: string, audioCodec: string)

  /** The `format_id` of `download`: in audio mode the first matching audio
      combination's id; otherwise the first matching video combination's
      id, joined by `+` to the first matching audio combination's id when
      there is one; null when no combination matches. */
  function SelectedFormatId(video: seq<VideoCombo>, audio: seq<AudioCombo>, choice: Choice): Option<string> {
    var a := FindAudio(audio, choice.audioFormat, choice.audioCodec);
    if choice.mode == "audio" then
      match a
      case None => None
      case Some(ac) => Some(ac.formatId)
    else
      match FindVideo(video, choice.quality, choice.videoFormat, choice.videoCodec)
      case None => None
      case Some(vc) =>
        match a
        case None => Some(vc.formatId)
        case Some(ac) => Some(vc.formatId + "+" + ac.formatId)
  }

  /** Index i is the first match of p in xs. */
  ghost predicate FirstMatch<T>(xs: seq<T>, p: T -> bool, i: int) {
    0 <= i < |xs| && p(xs[i]) && forall k :: 0 <= k < i ==> !p(xs[k])
  }

  /** Audio mode sends the id of the first combination whose format and
      codec are the selected ones. */
  lemma AudioModeId(video: seq<VideoCombo>, audio: seq<AudioCombo>, choice: Choice, j: int)
    requires choice.mode == "audio"
    requires FirstMatch(audio, (c: AudioCombo) => AudioMatches(c, choice.audioFormat, choice.audioCodec), j)
    ensures SelectedFormatId(video, audio, choice) == Some(audio[j].formatId)
  {
    var a := FindAudio(audio, choice.audioFormat, choice.audioCodec);
    var i :| 0 <= i < |audio| && audio[i] == a.value && AudioMatches(audio[i], choice.audioFormat, choice.audioCodec) &&
             forall k :: 0 <= k < i ==> !AudioMatches(audio[k], choice.audioFormat, choice.audioCodec);
    assert i == j;
  }

  /** Outside audio mode, a matching video and a matching audio
      combination give "<video id>+<audio id>" of the first of each. */
  lemma VideoAndAudioId(video: seq<VideoCombo>, audio: seq<AudioCombo>, choice: Choice, i: int, j: int)
    requires choice.mode != "audio"
    requires FirstMatch(video, (c: VideoCombo) => VideoMatches(c, choice.quality, choice.videoFormat, choice.videoCodec), i)
    requires FirstMatch(audio, (c: AudioCombo) => AudioMatches(c, choice.audioFormat, choice.audioCodec), j)
    ensures SelectedFormatId(video, audio, choice) == Some(video[i].formatId + "+" + audio[j].formatId)
  {
    var v := FindVideo(video, choice.quality, choice.videoFormat, choice.videoCodec);
    var a := FindAudio(audio, choice.audioFormat, choice.audioCodec);
    var i' :| 0 <= i' < |video| && video[i'] == v.value && VideoMatches(video[i'], choice.quality, choice.videoFormat, choice.videoCodec) &&
              forall k :: 0 <= k < i' ==> !VideoMatches(video[k], choice.quality, choice.videoFormat, choice.videoCodec);
    var j' :| 0 <= j' < |audio| && audio[j'] == a.value && AudioMatches(audio[j'], choice.audioFormat, choice.audioCodec) &&
              forall k :: 0 <= k < j' ==> !AudioMatches(audio[k], choice.audioFormat, choice.audioCodec);
    assert i' == i && j' == j;
  }

  /** Outside audio mode, a matching video combination without a matching
      audio one gives the video id alone. */
  lemma VideoOnlyId(video: seq<VideoCombo>, audio: seq<AudioCombo>, choice: Choice, i: int)
    requires choice.mode != "audio"
    requires FirstMatch(video, (c: VideoCombo) => VideoMatches(c, choice.quality, choice.videoFormat, choice.videoCodec), i)
    requires forall k :: 0 <= k < |audio| ==> !AudioMatches(audio[k], choice.audioFormat, choice.audioCodec)
    ensures SelectedFormatId(video, audio, choice) == Some(video[i].formatId)
  {
    var v := FindVideo(video, choice.quality, choice.videoFormat, choice.videoCodec);
    var i' :| 0 <= i' < |video| && video[i'] == v.value && VideoMatches(video[i'], choice.quality, choice.videoFormat, choice.videoCodec) &&
              forall k :: 0 <= k < i' ==> !VideoMatches(video[k], choice.quality, choice.videoFormat, choice.videoCodec);
    assert i' == i;
  }

  /** No id at all: in audio mode when no audio combination matches,
      otherwise when no video combination matches (whatever the audio). */
  lemma NoFormatId(video: seq<VideoCombo>, audio: seq<AudioCombo>, choice: Choice)
    ensures SelectedFormatId(video, audio, choice).None? <==>
      if choice.mode == "audio" then forall k :: 0 <= k < |audio| ==> !AudioMatches(audio[k], choice.audioFormat, choice.audioCodec)
      else forall k :: 0 <= k < |video| ==> !VideoMatches(video[k], choice.quality, choice.videoFormat, choice.videoCodec)
  {
  }

  /** `if (!format_id)`: null and the empty string are both refused; a
      joined "v+a" id never is. */
  predicate Sendable(formatId: Option<string>) {
    formatId.Some? && formatId.value != ""
  }

  lemma JoinedIdSendable(v: string, a: string)
    ensures Sendable(Some(v + "+" + a))
  {
    assert (v + "+" + a)[|v|] == '+';
  }

  // ---------------------------------------------------------------- resolutions

  /** x placed into a list sorted from high to low. */
  function InsertDescending(x: int, s: seq<int>): seq<int>
    decreases |s|
  {
    if s == [] || x >= s[0] then [x] + s
    else [s[0]] + InsertDescending(x, s[1..])
  }

  /** `sort((a, b) => b - a)`: the values from high to low. */
  function SortDescending(xs: seq<int>): seq<int>
    decreases |xs|
  {
    if xs == [] then []
    else InsertDescending(xs[0], SortDescending(xs[1..]))
  }

  lemma {:induction false} InsertMultiset(x: int, s: seq<int>)
    ensures multiset(InsertDescending(x, s)) == multiset(s) + multiset{x}
    decreases |s|
  {
    if s != [] && x < s[0] {
      assert s == [s[0]] + s[1..];
      InsertMultiset(x, s[1..]);
    }
  }

  /** Sorting neither adds nor drops a value. */
  lemma {:induction false} SortMultiset(xs: seq<int>)
    ensures multiset(SortDescending(xs)) == multiset(xs)
    decreases |xs|
  {
    if xs != [] {
      assert xs == [xs[0]] + xs[1..];
      SortMultiset(xs[1..]);
      InsertMultiset(xs[0], SortDescending(xs[1..]));
    }
  }

  ghost predicate StrictlyDescending(s: seq<int>) {
    forall i, j :: 0 <= i < j < |s| ==> s[i] > s[j]
  }

  lemma {:induction false} InsertStrict(x: int, s: seq<int>)
    requires StrictlyDescending(s) && x !in s
    ensures StrictlyDescending(InsertDescending(x, s))
    decreases |s|
  {
    if s != [] && x < s[0] {
      InsertStrict(x, s[1..]);
      InsertMultiset(x, s[1..]);
      var t := InsertDescending(x, s[1..]);
      assert forall k :: 0 <= k < |t| ==> t[k] in multiset(s[1..]) + multiset{x};
      forall k | 0 <= k < |t| ensures s[0] > t[k] {
        assert t[k] in multiset(s[1..]) + multiset{x};
        if t[k] != x {
          assert t[k] in s[1..];
          var m :| 0 <= m < |s[1..]| && s[1..][m] == t[k];
          assert s[m + 1] == t[k];
        }
      }
    }
  }

  /** Sorting distinct values gives them strictly from high to low. */
  lemma {:induction false} SortStrict(xs: seq<int>)
    requires NoDuplicates(xs)
    ensures StrictlyDescending(SortDescending(xs))
    decreases |xs|
  {
    if xs != [] {
      assert NoDuplicates(xs[1..]);
      SortStrict(xs[1..]);
      SortMultiset(xs[1..]);
      assert xs[0] !in xs[1..];
      assert xs[0] !in multiset(SortDescending(xs[1..]));
      InsertStrict(xs[0], SortDescending(xs[1..]));
    }
  }

  /** The resolution options: the distinct heights from high to low. */
  function Resolutions(video: seq<VideoCombo>): seq<int> {
    SortDescending(Distinct(Collect(video, (c: VideoCombo) => true, (c: VideoCombo) => c.height)))
  }

  /** Resolutions are strictly descending, and a height is offered exactly
      when some combination has it. */
  lemma ResolutionsSpec(video: seq<VideoCombo>)
    ensures StrictlyDescending(Resolutions(video))
    ensures forall h :: h in Resolutions(video) <==> exists k :: 0 <= k < |video| && video[k].height == h
  {
    var all := (c: VideoCombo) => true;
    var height := (c: VideoCombo) => c.height;
    var d := Distinct(Collect(video, all, height));
    DistinctSpec(Collect(video, all, height));
    SortStrict(d);
    SortMultiset(d);
    forall h ensures h in Resolutions(video) <==> exists k :: 0 <= k < |video| && video[k].height == h {
      assert h in Resolutions(video) <==> h in multiset(d);
      CollectMember(video, all, height, h);
      DistinctMember(Collect(video, all, height), h);
    }
  }

  // ---------------------------------------------------------------- collected properties

  /** The property f of the elements of xs that satisfy keep, in order
      (a `filter` followed by a `map`). */
  function Collect<T, U>(xs: seq<T>, keep: T -> bool, f: T -> U): seq<U>
    decreases |xs|
  {
    if xs == [] then []
    else
      var last := xs[|xs| - 1];
      Collect(xs[..|xs| - 1], keep, f) + (if keep(last) then [f(last)] else [])
  }

  lemma CollectSnoc<T, U>(xs: seq<T>, x: T, keep: T -> bool, f: T -> U)
    ensures Collect(xs + [x], keep, f) == Collect(xs, keep, f) + (if keep(x) then [f(x)] else [])
  {
    assert (xs + [x])[..|xs|] == xs;
  }

  /** y is collected exactly when some element satisfies keep and has y as
      its property. */
  lemma {:induction false} CollectMember<T, U>(xs: seq<T>, keep: T -> bool, f: T -> U, y: U)
    ensures y in Collect(xs, keep, f) <==> exists k :: 0 <= k < |xs| && keep(xs[k]) && f(xs[k]) == y
    decreases |xs|
  {
    if xs != [] {
      var init, last := xs[..|xs| - 1], xs[|xs| - 1];
      CollectMember(init, keep, f, y);
      if y in Collect(init, keep, f) {
        var k :| 0 <= k < |init| && keep(init[k]) && f(init[k]) == y;
        assert xs[k] == init[k];
      }
      if k :| 0 <= k < |xs| && keep(xs[k]) && f(xs[k]) == y {
        if k < |init| {
          assert init[k] == xs[k];
        }
      }
    }
  }

  /** A property list with no element kept is empty. */
  lemma {:induction false} CollectNone<T, U>(xs: seq<T>, keep: T -> bool, f: T -> U)
    requires forall k :: 0 <= k < |xs| ==> !keep(xs[k])
    ensures Collect(xs, keep, f) == []
    decreases |xs|
  {
    if xs != [] {
      var init := xs[..|xs| - 1];
      assert forall k :: 0 <= k < |init| ==> init[k] == xs[k];
      CollectNone(init, keep, f);
    }
  }

  lemma DistinctMember<T>(xs: seq<T>, x: T)
    ensures x in Distinct(xs) <==> x in xs
  {
    DistinctSpec(xs);
    if x in Distinct(xs) {
      var m :| 0 <= m < |Distinct(xs)| && Distinct(xs)[m] == x;
    }
    if x in xs {
      var m :| 0 <= m < |xs| && xs[m] == x;
    }
  }

  /** The distinct collected properties, one more element later: unchanged
      when its property is already there, extended by it otherwise. */
  lemma DistinctCollectSnoc<T, U>(xs: seq<T>, x: T, keep: T -> bool, f: T -> U)
    ensures Distinct(Collect(xs + [x], keep, f)) ==
      if keep(x) then SetAdd(Distinct(Collect(xs, keep, f)), f(x)) else Distinct(Collect(xs, keep, f))
  {
    CollectSnoc(xs, x, keep, f);
    if keep(x) {
      DistinctSnoc(Collect(xs, keep, f), f(x));
      DistinctMember(Collect(xs, keep, f), f(x));
    } else {
      assert Collect(xs, keep, f) + [] == Collect(xs, keep, f);
    }
  }

  // ---------------------------------------------------------------- video formats and codecs

  /** `updateFormatOptions`: the distinct formats of the combinations at the
      selected height, in first-occurrence order. */
  function FormatsAt(video: seq<VideoCombo>, height: Option<int>): seq<string> {
    Distinct(Collect(video, (c: VideoCombo) => height == Some(c.height), (c: VideoCombo) => c.format))
  }

  /** `updateCodecOptions` of the video selects: the distinct codecs of the
      combinations at the selected height and format, in first-occurrence order. */
  function CodecsAt(video: seq<VideoCombo>, height: Option<int>, format: string): seq<string> {
    Distinct(Collect(video, (c: VideoCombo) => height == Some(c.height) && c.format == format, (c: VideoCombo) => c.codec))
  }

  /** The format options at a height list each format of a combination at
      that height once, and nothing else. */
  lemma FormatsAtSpec(video: seq<VideoCombo>, height: Option<int>)
    ensures NoDuplicates(FormatsAt(video, height))
    ensures forall f :: f in FormatsAt(video, height) <==>
      exists k :: 0 <= k < |video| && height == Some(video[k].height) && video[k].format == f
  {
    var keep := (c: VideoCombo) => height == Some(c.height);
    var pick := (c: VideoCombo) => c.format;
    DistinctSpec(Collect(video, keep, pick));
    forall f ensures f in FormatsAt(video, height) <==>
      exists k :: 0 <= k < |video| && height == Some(video[k].height) && video[k].format == f
    {
      CollectMember(video, keep, pick, f);
      DistinctMember(Collect(video, keep, pick), f);
    }
  }

  /** The codec options at a height and format list each codec of a
      combination with both once, and nothing else. */
  lemma CodecsAtSpec(video: seq<VideoCombo>, height: Option<int>, format: string)
    ensures NoDuplicates(CodecsAt(video, height, format))
    ensures forall c :: c in CodecsAt(video, height, format) <==>
      exists k :: 0 <= k < |video| && height == Some(video[k].height) && video[k].format == format && video[k].codec == c
  {
    var keep := (c: VideoCombo) => height == Some(c.height) && c.format == format;
    var pick := (c: VideoCombo) => c.codec;
    DistinctSpec(Collect(video, keep, pick));
    forall c ensures c in CodecsAt(video, height, format) <==>
      exists k :: 0 <= k < |video| && height == Some(video[k].height) && video[k].format == format && video[k].codec == c
    {
      CollectMember(video, keep, pick, c);
      DistinctMember(Collect(video, keep, pick), c);
    }
  }

  // ---------------------------------------------------------------- audio formats and codecs

  /** The `validFormats` set of `updateAudioOptions`, in insertion order. */
  function AudioFormats(audio: seq<AudioCombo>): seq<string> {
    Distinct(Collect(audio, (c: AudioCombo) => true, (c: AudioCombo) => c.format))
  }

  /** The `validCodecs` set, in insertion order (built and never read). */
  function AudioCodecs(audio: seq<AudioCombo>): seq<string> {
    Distinct(Collect(audio, (c: AudioCombo) => true, (c: AudioCombo) => c.codec))
  }

  /** The codecs that occur together with format f, in insertion order. */
  function CodecsFor(audio: seq<AudioCombo>, f: string): seq<string> {
    Distinct(Collect(audio, (c: AudioCombo) => c.format == f, (c: AudioCombo) => c.codec))
  }

  /** `formatCodecMap`: each format that occurs, mapped to its codecs. */
  function CodecMap(audio: seq<AudioCombo>): map<string, seq<string>> {
    map f | f in AudioFormats(audio) :: CodecsFor(audio, f)
  }

  /** `formatCodecMap.get(selectedFormat) || new Set()`. */
  function CodecOptions(m: map<string, seq<string>>, f: string): seq<string> {
    if f in m then m[f] else []
  }

  /** A format is a key of the map exactly when some combination has it. */
  lemma CodecMapKeys(audio: seq<AudioCombo>, f: string)
    ensures f in CodecMap(audio) <==> exists k :: 0 <= k < |audio| && audio[k].format == f
  {
    var all := (c: AudioCombo) => true;
    var fmt := (c: AudioCombo) => c.format;
    CollectMember(audio, all, fmt, f);
    DistinctMember(Collect(audio, all, fmt), f);
  }

  /** The map's codec list for a format is exactly the codecs that occur with
      it, each once; a format that does not occur gets no codecs. */
  lemma CodecMapSpec(audio: seq<AudioCombo>, f: string)
    ensures f in CodecMap(audio) <==> exists k :: 0 <= k < |audio| && audio[k].format == f
    ensures CodecOptions(CodecMap(audio), f) == CodecsFor(audio, f)
    ensures NoDuplicates(CodecOptions(CodecMap(audio), f))
    ensures forall c :: c in CodecOptions(CodecMap(audio), f) <==>
      exists k :: 0 <= k < |audio| && audio[k].format == f && audio[k].codec == c
  {
    var keep := (c: AudioCombo) => c.format == f;
    var pick := (c: AudioCombo) => c.codec;
    CodecMapKeys(audio, f);
    if f !in CodecMap(audio) {
      CollectNone(audio, keep, pick);
    }
    DistinctSpec(Collect(audio, keep, pick));
    forall c ensures c in CodecsFor(audio, f) <==> exists k :: 0 <= k < |audio| && audio[k].format == f && audio[k].codec == c {
      CollectMember(audio, keep, pick, c);
      DistinctMember(Collect(audio, keep, pick), c);
    }
  }

  /** One more combination: its format's codec list gains its codec when the
      codec is new to it, and a new format enters with just that codec. */
  lemma CodecMapSnoc(audio: seq<AudioCombo>, x: AudioCombo)
    ensures CodecMap(audio + [x]) == CodecMap(audio)[x.format := SetAdd(CodecOptions(CodecMap(audio), x.format), x.codec)]
  {
    var m, m' := CodecMap(audio), CodecMap(audio + [x]);
    var v := SetAdd(CodecOptions(m, x.format), x.codec);
    forall f ensures f in m' <==> f in m || f == x.format {
      CodecMapKeys(audio, f);
      CodecMapKeys(audio + [x], f);
      assert (audio + [x])[|audio|] == x;
      assert forall k :: 0 <= k < |audio| ==> (audio + [x])[k] == audio[k];
    }
    forall f | f in m' && f != x.format ensures m'[f] == m[f] {
      DistinctCollectSnoc(audio, x, (c: AudioCombo) => c.format == f, (c: AudioCombo) => c.codec);
    }
    assert m'[x.format] == v by {
      CodecMapSpec(audio, x.format);
      DistinctCollectSnoc(audio, x, (c: AudioCombo) => c.format == x.format, (c: AudioCombo) => c.codec);
    }
    MapUpdateEq(m', m, x.format, v);
  }

  /** Two maps agree when one is the other with key k set to v. */
  lemma MapUpdateEq<K, V>(m': map<K, V>, m: map<K, V>, k: K, v: V)
    requires forall f :: f in m' <==> f in m || f == k
    requires forall f :: f in m' && f != k ==> m'[f] == m[f]
    requires k in m' && m'[k] == v
    ensures m' == m[k := v]
  {
  }

  /** The `combinations.forEach` of `updateAudioOptions`: it adds each
      combination's format and codec to the two sets and its codec to its
      format's entry of the map, creating the entry on first sight. */
  method CollectAudio(audio: seq<AudioCombo>)
    returns (formats: seq<string>, codecs: seq<string>, formatCodecMap: map<string, seq<string>>)
    ensures formats == AudioFormats(audio)
    ensures codecs == AudioCodecs(audio)
    ensures formatCodecMap == CodecMap(audio)
  {
    formats, codecs, formatCodecMap := [], [], map[];
    for i := 0 to |audio|
      invariant formats == AudioFormats(audio[..i])
      invariant codecs == AudioCodecs(audio[..i])
      invariant formatCodecMap == CodecMap(audio[..i])
    {
      var combo := audio[i];
      assert audio[..i + 1] == audio[..i] + [combo];
      DistinctCollectSnoc(audio[..i], combo, (c: AudioCombo) => true, (c: AudioCombo) => c.format);
      DistinctCollectSnoc(audio[..i], combo, (c: AudioCombo) => true, (c: AudioCombo) => c.codec);
      CodecMapSnoc(audio[..i], combo);
      formats := SetAdd(formats, combo.format);
      codecs := SetAdd(codecs, combo.codec);
      formatCodecMap := formatCodecMap[combo.format := SetAdd(CodecOptions(formatCodecMap, combo.format), combo.codec)];
    }
    assert audio[..|audio|] == audio;
  }

  // ---------------------------------------------------------------- the mode switch and the debounce

  /** The mode check of `updateFormats`: no video but some audio switches to
      audio mode, no audio but some video to "auto", nothing at all is an
      error (None), and otherwise the mode stays. */
  function NextMode(mode: string, videoCount: nat, audioCount: nat): (r: Option<string>)
    ensures r.None? <==> videoCount == 0 && audioCount == 0
    ensures videoCount == 0 && audioCount > 0 ==> r == Some("audio")
    ensures audioCount == 0 && videoCount > 0 ==> r == Some("auto")
    ensures videoCount > 0 && audioCount > 0 ==> r == Some(mode)
  {
    if videoCount == 0 && audioCount > 0 then Some("audio")
    else if audioCount == 0 && videoCount > 0 then Some("auto")
    else if videoCount == 0 && audioCount == 0 then None
    else Some(mode)
  }

  const FormatRequestInterval: int := 1000

  /** Whether a format request at `now` goes out, given the time of the last
      one sent: only once a full second has passed. */
  predicate RequestAllowed(now: int, last: int) {
    now - last >= FormatRequestInterval
  }

  /** The times at which format requests went out, oldest first: each at
      least a second after the one before, the latest being `last`. */
  predicate Spaced(times: seq<int>, last: int) {
    (times != [] ==> times[|times| - 1] == last) &&
    forall i :: 0 < i < |times| ==> times[i] - times[i - 1] >= FormatRequestInterval
  }

  /** Any two requests that went out are a second apart for every request
      between them: the debounce spaces them all, not only neighbours. */
  lemma {:induction false} SpacedApart(times: seq<int>, last: int, i: int, j: int)
    requires Spaced(times, last) && 0 <= i <= j < |times|
    ensures times[j] - times[i] >= 1000 * (j - i)
    decreases j - i
  {
    if i < j {
      SpacedApart(times, last, i, j - 1);
      assert times[j] - times[j - 1] >= 1000;
    }
  }

  // ---------------------------------------------------------------- the page

  /** The reply to `/get_formats`; Failed stands for a non-ok response, a
      JSON `error` field or a network error. */
  datatype FormatsReply = Failed | Formats(video: seq<VideoCombo>, audio: seq<AudioCombo>)

  /** The body of a `/download_node` request. */
  datatype DownloadRequest = DownloadRequest(url: string, mode: string, formatId: string)

  /** What the video selects' listeners captured at the last
      `updateVideoOptions`: its combinations and the format and codec shown
      before the rebuild. Every call adds another pair of listeners; the
      one added last runs last and overwrites what the earlier ones did,
      so it alone decides the outcome. */
  datatype VideoListener = VideoListener(combos: seq<VideoCombo>, currentFormat: string, currentCodec: string)

  /** What the audio format select's listener captured at the last
      `updateAudioOptions`: the format-to-codec map and the codec shown
      before the rebuild. */
  datatype AudioListener = AudioListener(formatCodecMap: map<string, seq<string>>, currentCodec: string)

  const InvalidUrlError: string := "Please enter a valid URL"
  const NoFormatError: string := "Could not find matching format. Please try again."
  const FormatsFailedError: string := "failed to fetch formats for this link. try a different one?"

  class Picker {
    /** The `download-mode` select: "auto" or "audio". */
    var mode: string
    var quality: Select<int>
    var videoFormat: Select<string>
    var videoCodec: Select<string>
    var audioFormat: Select<string>
    var audioCodec: Select<string>
    /** `window.currentVideoCombinations || []` and its audio counterpart. */
    var videoCombos: seq<VideoCombo>
    var audioCombos: seq<AudioCombo>
    var videoListener: Option<VideoListener>
    var audioListener: Option<AudioListener>
    var lastFormatRequestTime: int
    /** The download button's text and whether it is disabled. */
    var buttonText: string
    var buttonDisabled: bool
    /** The error message shown, None while it is hidden. */
    var error: Option<string>
    /** The URLs sent to `/get_formats` and the requests sent to `/download_node`. */
    var formatRequests: seq<string>
    /** The times the requests in `formatRequests` went out. */
    ghost var requestTimes: seq<int>
    var downloads: seq<DownloadRequest>

    ghost predicate Valid()
      reads this`quality, this`videoFormat, this`videoCodec, this`audioFormat, this`audioCodec
    {
      WellFormed(quality) && WellFormed(videoFormat) && WellFormed(videoCodec) &&
      WellFormed(audioFormat) && WellFormed(audioCodec)
    }

    /** The page as loaded, with the mode select showing `initialMode`. */
    constructor (initialMode: string)
      ensures Valid() && mode == initialMode
      ensures quality == Select([], None) && videoFormat == EmptySelect && videoCodec == EmptySelect
      ensures audioFormat == EmptySelect && audioCodec == EmptySelect
      ensures videoCombos == [] && audioCombos == [] && videoListener.None? && audioListener.None?
      ensures lastFormatRequestTime == 0 && buttonText == "download" && !buttonDisabled && error.None?
      ensures formatRequests == [] && downloads == []
      ensures requestTimes == [] && Spaced(requestTimes, lastFormatRequestTime)
    {
      mode := initialMode;
      quality := Select([], None);
      videoFormat, videoCodec := EmptySelect, EmptySelect;
      audioFormat, audioCodec := EmptySelect, EmptySelect;
      videoCombos, audioCombos := [], [];
      videoListener, audioListener := None, None;
      lastFormatRequestTime := 0;
      buttonText, buttonDisabled := "download", false;
      error := None;
      formatRequests, downloads := [], [];
      requestTimes := [];
    }

    /** `error_display`: the message is shown and the button re-enabled. */
    method ShowError(message: string)
      modifies this`error, this`buttonText, this`buttonDisabled
      ensures error == Some(message) && buttonText == "download" && !buttonDisabled
    {
      error := Some(message);
      buttonText, buttonDisabled := "download", false;
    }

    /** `download`: the error is hidden; an invalid URL or a selection with
        no (or an empty) format id shows an error and sends nothing;
        otherwise the button is disabled and the request sent. */
    method Download(url: string, validUrl: string -> bool)
      requires Valid()
      modifies this`error, this`buttonText, this`buttonDisabled, this`downloads
      ensures Valid()
      ensures var id := SelectedFormatId(videoCombos, audioCombos, CurrentChoice());
        if !validUrl(url) then
          error == Some(InvalidUrlError) && buttonText == "download" && !buttonDisabled && downloads == old(downloads)
        else if !Sendable(id) then
          error == Some(NoFormatError) && buttonText == "download" && !buttonDisabled && downloads == old(downloads)
        else
          error.None? && buttonText == "download starting" && buttonDisabled &&
          downloads == old(downloads) + [DownloadRequest(url, mode, id.value)]
    {
      error := None;
      if !validUrl(url) {
        ShowError(InvalidUrlError);
        return;
      }
      var formatId := SelectedFormatId(videoCombos, audioCombos, CurrentChoice());
      if formatId.None? || formatId.value == "" {
        ShowError(NoFormatError);
        return;
      }
      buttonText, buttonDisabled := "download starting", true;
      downloads := downloads + [DownloadRequest(url, mode, formatId.value)];
    }

    /** The values of the controls `download` reads. */
    function CurrentChoice(): Choice
      reads this`mode, this`quality, this`videoFormat, this`videoCodec, this`audioFormat, this`audioCodec
    {
      Choice(mode, quality.selected, Value(videoFormat), Value(videoCodec), Value(audioFormat), Value(audioCodec))
    }

    /** The URL box's `input` listener: the trimmed text, when not empty,
        is handed to `updateFormats`. */
    method UrlInput(text: string, now: int, validUrl: string -> bool) returns (sent: bool)
      modifies this`lastFormatRequestTime, this`buttonText, this`buttonDisabled, this`formatRequests, this`requestTimes
      ensures var url := Trim(text);
        sent <==> url != [] && validUrl(url) && RequestAllowed(now, old(lastFormatRequestTime))
      ensures sent ==> formatRequests == old(formatRequests) + [Trim(text)] && lastFormatRequestTime == now &&
                       buttonText == "checking url" && buttonDisabled
      ensures !sent ==> formatRequests == old(formatRequests) && lastFormatRequestTime == old(lastFormatRequestTime) &&
                        buttonText == old(buttonText) && buttonDisabled == old(buttonDisabled)
      ensures requestTimes == old(requestTimes) + (if sent then [now] else [])
      ensures Spaced(old(requestTimes), old(lastFormatRequestTime)) ==> Spaced(requestTimes, lastFormatRequestTime)
    {
      var url := Trim(text);
      sent := false;
      if url != [] {
        sent := RequestFormats(url, now, validUrl);
      }
    }

    /** `updateFormats` up to its fetch: nothing for an empty or invalid URL
        or within a second of the last request sent; otherwise the time is
        recorded, the button shows "checking url" and the request goes out. */
    method RequestFormats(url: string, now: int, validUrl: string -> bool) returns (sent: bool)
      modifies this`lastFormatRequestTime, this`buttonText, this`buttonDisabled, this`formatRequests, this`requestTimes
      ensures sent <==> url != [] && validUrl(url) && RequestAllowed(now, old(lastFormatRequestTime))
      ensures sent ==> formatRequests == old(formatRequests) + [url] && lastFormatRequestTime == now &&
                       buttonText == "checking url" && buttonDisabled
      ensures !sent ==> formatRequests == old(formatRequests) && lastFormatRequestTime == old(lastFormatRequestTime) &&
                        buttonText == old(buttonText) && buttonDisabled == old(buttonDisabled)
      ensures requestTimes == old(requestTimes) + (if sent then [now] else [])
      ensures Spaced(old(requestTimes), old(lastFormatRequestTime)) ==> Spaced(requestTimes, lastFormatRequestTime)
    {
      if url == [] || !validUrl(url) {
        return false;
      }
      if now - lastFormatRequestTime < FormatRequestInterval {
        return false;
      }
      lastFormatRequestTime := now;
      buttonText, buttonDisabled := "checking url", true;
      formatRequests := formatRequests + [url];
      requestTimes := requestTimes + [now];
      sent := true;
    }

    /** The promise chain of `updateFormats` once the reply arrives: all
        five selects are emptied, the mode switched, and the video and audio
        selects rebuilt from the non-empty lists; a failed reply or one with
        no combinations at all shows an error with the selects empty; the
        `finally` block re-enables the button. */
    method ReceiveFormats(reply: FormatsReply)
      requires Valid()
      modifies this`mode, this`error, this`buttonText, this`buttonDisabled
      modifies this`videoCombos, this`quality, this`videoFormat, this`videoCodec, this`videoListener
      modifies this`audioCombos, this`audioFormat, this`audioCodec, this`audioListener
      ensures Valid()
      ensures reply.Failed? || (reply.video == [] && reply.audio == []) ==>
        && error == Some(FormatsFailedError) && mode == old(mode)
        && quality == Select([], None) && videoFormat == EmptySelect && videoCodec == EmptySelect
        && audioFormat == EmptySelect && audioCodec == EmptySelect
        && videoCombos == old(videoCombos) && audioCombos == old(audioCombos)
        && videoListener == old(videoListener) && audioListener == old(audioListener)
      ensures reply.Formats? && (reply.video != [] || reply.audio != []) ==>
        && Some(mode) == NextMode(old(mode), |reply.video|, |reply.audio|)
        && error == old(error)
        && (reply.video != [] ==> VideoRebuilt(reply.video, None, EmptySelect, EmptySelect))
        && (reply.video == [] ==> quality == Select([], None) && videoFormat == EmptySelect && videoCodec == EmptySelect &&
                                  videoCombos == old(videoCombos) && videoListener == old(videoListener))
        && (reply.audio != [] ==> AudioRebuilt(reply.audio, EmptySelect, EmptySelect))
        && (reply.audio == [] ==> audioFormat == EmptySelect && audioCodec == EmptySelect &&
                                  audioCombos == old(audioCombos) && audioListener == old(audioListener))
      ensures buttonText == "download" && !buttonDisabled
    {
      ClearSelects();
      match reply
      case Failed =>
        ShowError(FormatsFailedError);
      case Formats(video, audio) =>
        ApplyFormats(video, audio);
      ResetButton();
    }

    /** The `finally` block of `updateFormats`: the button is re-enabled. */
    method ResetButton()
      modifies this`buttonText, this`buttonDisabled
      ensures buttonText == "download" && !buttonDisabled
    {
      buttonText, buttonDisabled := "download", false;
    }

    /** The five selects emptied (`innerHTML = ''`). */
    method ClearSelects()
      modifies this`quality, this`videoFormat, this`videoCodec, this`audioFormat, this`audioCodec
      ensures Valid()
      ensures quality == Select([], None) && videoFormat == EmptySelect && videoCodec == EmptySelect
      ensures audioFormat == EmptySelect && audioCodec == EmptySelect
    {
      quality := Select([], None);
      videoFormat, videoCodec := EmptySelect, EmptySelect;
      audioFormat, audioCodec := EmptySelect, EmptySelect;
    }

    /** The `.then(data => ...)` step of `updateFormats` on a reply with
        combinations, the selects already emptied: the mode is switched and
        each non-empty list rebuilds its selects; with neither list the
        error path is taken (the selects stay empty). */
    method ApplyFormats(video: seq<VideoCombo>, audio: seq<AudioCombo>)
      requires Valid()
      requires quality == Select([], None) && videoFormat == EmptySelect && videoCodec == EmptySelect
      requires audioFormat == EmptySelect && audioCodec == EmptySelect
      modifies this`mode, this`error, this`buttonText, this`buttonDisabled
      modifies this`videoCombos, this`quality, this`videoFormat, this`videoCodec, this`videoListener
      modifies this`audioCombos, this`audioFormat, this`audioCodec, this`audioListener
      ensures Valid()
      ensures video == [] && audio == [] ==>
        && error == Some(FormatsFailedError) && mode == old(mode)
        && quality == Select([], None) && videoFormat == EmptySelect && videoCodec == EmptySelect
        && audioFormat == EmptySelect && audioCodec == EmptySelect
        && videoCombos == old(videoCombos) && audioCombos == old(audioCombos)
        && videoListener == old(videoListener) && audioListener == old(audioListener)
      ensures video != [] || audio != [] ==>
        && Some(mode) == NextMode(old(mode), |video|, |audio|)
        && error == old(error)
        && (video != [] ==> VideoRebuilt(video, None, EmptySelect, EmptySelect))
        && (video == [] ==> quality == Select([], None) && videoFormat == EmptySelect && videoCodec == EmptySelect &&
                            videoCombos == old(videoCombos) && videoListener == old(videoListener))
        && (audio != [] ==> AudioRebuilt(audio, EmptySelect, EmptySelect))
        && (audio == [] ==> audioFormat == EmptySelect && audioCodec == EmptySelect &&
                            audioCombos == old(audioCombos) && audioListener == old(audioListener))
    {
      var next := NextMode(mode, |video|, |audio|);
      if next.None? {
        ShowError(FormatsFailedError);
        return;
      }
      mode := next.value;
      if video != [] {
        UpdateVideoOptions(video, None);
      }
      if audio != [] {
        UpdateAudioOptions(audio);
      }
    }

    /** The three video selects as `updateVideoOptions(combos, selectedQuality)`
        leaves them, from the format and codec selects it found. */
    ghost predicate VideoRebuilt(combos: seq<VideoCombo>, selectedQuality: Option<int>,
                                 formatBefore: Select<string>, codecBefore: Select<string>)
      reads this`videoCombos, this`quality, this`videoFormat, this`videoCodec, this`videoListener
    {
      var listener := VideoListener(combos, Value(formatBefore), Value(codecBefore));
      && videoCombos == combos
      && videoListener == Some(listener)
      && quality == Rebuild(Resolutions(combos), selectedQuality)
      && videoFormat == Rebuild(FormatsAt(combos, quality.selected), Some(listener.currentFormat))
      && videoCodec == Rebuild(CodecsAt(combos, quality.selected, Value(videoFormat)), Some(listener.currentCodec))
    }

    /** The two audio selects as `updateAudioOptions(combos)` leaves them. */
    ghost predicate AudioRebuilt(combos: seq<AudioCombo>, formatBefore: Select<string>, codecBefore: Select<string>)
      reads this`audioCombos, this`audioFormat, this`audioCodec, this`audioListener
    {
      && audioCombos == combos
      && audioListener == Some(AudioListener(CodecMap(combos), Value(codecBefore)))
      && audioFormat == Rebuild(AudioFormats(combos), Some(Value(formatBefore)))
      && audioCodec == Rebuild(CodecOptions(CodecMap(combos), Value(audioFormat)), Some(Value(codecBefore)))
    }

    /** `updateVideoOptions`: the combinations are stored, the resolutions
        rebuilt keeping `selectedQuality`, and the format and codec selects
        rebuilt for the selected resolution, keeping the format and codec
        shown before when they are still offered. */
    method UpdateVideoOptions(combos: seq<VideoCombo>, selectedQuality: Option<int>)
      modifies this`videoCombos, this`quality, this`videoFormat, this`videoCodec, this`videoListener
      requires Valid()
      ensures VideoRebuilt(combos, selectedQuality, old(videoFormat), old(videoCodec))
      ensures Valid()
    {
      videoCombos := combos;
      var currentFormat := Value(videoFormat);
      var currentCodec := Value(videoCodec);
      quality := FillSelect(Resolutions(combos), selectedQuality);
      var listener := VideoListener(combos, currentFormat, currentCodec);
      videoListener := Some(listener);
      UpdateVideoFormatOptions(listener);
    }

    /** The inner `updateFormatOptions`, run at once and on every change of
        the resolution select. */
    method UpdateVideoFormatOptions(listener: VideoListener)
      modifies this`videoFormat, this`videoCodec
      ensures videoFormat == Rebuild(FormatsAt(listener.combos, quality.selected), Some(listener.currentFormat))
      ensures videoCodec == Rebuild(CodecsAt(listener.combos, quality.selected, Value(videoFormat)), Some(listener.currentCodec))
    {
      videoFormat := FillSelect(FormatsAt(listener.combos, quality.selected), Some(listener.currentFormat));
      UpdateVideoCodecOptions(listener);
    }

    /** The inner `updateCodecOptions` of the video selects, run after each
        format rebuild and on every change of the format select. */
    method UpdateVideoCodecOptions(listener: VideoListener)
      modifies this`videoCodec
      ensures videoCodec == Rebuild(CodecsAt(listener.combos, quality.selected, Value(videoFormat)), Some(listener.currentCodec))
    {
      videoCodec := FillSelect(CodecsAt(listener.combos, quality.selected, Value(videoFormat)), Some(listener.currentCodec));
    }

    /** `updateAudioOptions`: the combinations are stored, the format set,
        codec set and format-to-codec map collected, the format select
        rebuilt and the codec select filled from the selected format's entry. */
    method UpdateAudioOptions(combos: seq<AudioCombo>)
      modifies this`audioCombos, this`audioFormat, this`audioCodec, this`audioListener
      requires Valid()
      ensures AudioRebuilt(combos, old(audioFormat), old(audioCodec))
      ensures Valid()
    {
      audioCombos := combos;
      var currentFormat := Value(audioFormat);
      var currentCodec := Value(audioCodec);
      var formats, codecs, formatCodecMap := CollectAudio(combos);
      audioFormat := FillSelect(formats, Some(currentFormat));
      var listener := AudioListener(formatCodecMap, currentCodec);
      audioListener := Some(listener);
      UpdateAudioCodecOptions(listener);
    }

    /** The audio `updateCodecOptions`, run at once and on every change of
        the audio format select. */
    method UpdateAudioCodecOptions(listener: AudioListener)
      modifies this`audioCodec
      ensures audioCodec == Rebuild(CodecOptions(listener.formatCodecMap, Value(audioFormat)), Some(listener.currentCodec))
    {
      audioCodec := FillSelect(CodecOptions(listener.formatCodecMap, Value(audioFormat)), Some(listener.currentCodec));
    }

    /** The user picks resolution h: the listener from the last
        `updateVideoOptions`, if any, rebuilds the format and codec selects. */
    method ChooseQuality(h: int)
      requires Valid() && h in quality.options
      modifies this`quality, this`videoFormat, this`videoCodec
      ensures Valid() && quality == Select(old(quality.options), Some(h))
      ensures videoListener.None? ==> videoFormat == old(videoFormat) && videoCodec == old(videoCodec)
      ensures videoListener.Some? ==>
        videoFormat == Rebuild(FormatsAt(videoListener.value.combos, Some(h)), Some(videoListener.value.currentFormat)) &&
        videoCodec == Rebuild(CodecsAt(videoListener.value.combos, Some(h), Value(videoFormat)), Some(videoListener.value.currentCodec))
    {
      quality := Select(quality.options, Some(h));
      if videoListener.Some? {
        UpdateVideoFormatOptions(videoListener.value);
      }
    }

    /** The user picks video format f: the codec select is rebuilt. */
    method ChooseVideoFormat(f: string)
      requires Valid() && f in videoFormat.options
      modifies this`videoFormat, this`videoCodec
      ensures Valid() && videoFormat == Select(old(videoFormat.options), Some(f))
      ensures videoListener.None? ==> videoCodec == old(videoCodec)
      ensures videoListener.Some? ==>
        videoCodec == Rebuild(CodecsAt(videoListener.value.combos, quality.selected, f), Some(videoListener.value.currentCodec))
    {
      videoFormat := Select(videoFormat.options, Some(f));
      if videoListener.Some? {
        UpdateVideoCodecOptions(videoListener.value);
      }
    }

    /** The user picks audio format f: the codec select is refilled from
        f's entry of the map. */
    method ChooseAudioFormat(f: string)
      requires Valid() && f in audioFormat.options
      modifies this`audioFormat, this`audioCodec
      ensures Valid() && audioFormat == Select(old(audioFormat.options), Some(f))
      ensures audioListener.None? ==> audioCodec == old(audioCodec)
      ensures audioListener.Some? ==>
        audioCodec == Rebuild(CodecOptions(audioListener.value.formatCodecMap, f), Some(audioListener.value.currentCodec))
    {
      audioFormat := Select(audioFormat.options, Some(f));
      if audioListener.Some? {
        UpdateAudioCodecOptions(audioListener.value);
      }
    }

    /** The user picks a mode; its listener only shows or hides selects. */
    method ChooseMode(m: string)
      modifies this`mode
      ensures mode == m
    {
      mode := m;
    }
  }
}
