/** The QR code page: the code is regenerated from the text box, the size
    slider and the error-correction select; it can be saved under a name
    made from the text. */
module QrCode {
  import opened Common
  import opened Text

  /** `replace(/[^a-z0-9]/gi, '-')`: every character that is not an ASCII
      letter or digit becomes a dash. */
  function Dashed(s: string): (r: string)
    ensures |r| == |s|
    ensures forall k :: 0 <= k < |s| ==> r[k] == if IsAlnum(s[k]) then s[k] else '-'
  {
    seq(|s|, k requires 0 <= k < |s| => if IsAlnum(s[k]) then s[k] else '-')
  }

  /** A character a saved file name may hold. */
  predicate NameChar(c: char) {
    IsLower(c) || IsDigit(c) || c == '-'
  }

  const DefaultName: string := "qr-code"
  const MaxNameLength: nat := 50

  /** The file name `saveQRCode` makes from the text box: "qr-code" for
      blank text, otherwise the trimmed text dashed, lower-cased and cut to
      fifty characters. */
  function SanitizedName(text: string): string {
    var t := Trim(text);
    if t == [] then DefaultName
    else
      var name := Lower(Dashed(t));
      if |name| > MaxNameLength then name[..MaxNameLength] else name
  }

  /** Blank text gives "qr-code"; otherwise the name is as long as the
      trimmed text up to fifty, holds only lower-case letters, digits and
      dashes, and keeps each letter and digit where it stood (lower-cased),
      a dash in place of anything else. */
  lemma SanitizedNameSpec(text: string)
    ensures Trim(text) == [] ==> SanitizedName(text) == DefaultName
    ensures Trim(text) != [] ==>
      |SanitizedName(text)| == Min(|Trim(text)|, 50) &&
      forall k :: 0 <= k < |SanitizedName(text)| ==>
        SanitizedName(text)[k] == (if IsAlnum(Trim(text)[k]) then LowerChar(Trim(text)[k]) else '-')
    ensures forall k :: 0 <= k < |SanitizedName(text)| ==> NameChar(SanitizedName(text)[k])
  {
    var t := Trim(text);
    if t != [] {
      var d := Dashed(t);
      var name := Lower(d);
      var r := SanitizedName(text);
      assert r == if |name| > 50 then name[..50] else name;
      forall k | 0 <= k < |r|
        ensures r[k] == (if IsAlnum(t[k]) then LowerChar(t[k]) else '-') && NameChar(r[k])
      {
        assert r[k] == name[k] == LowerChar(d[k]);
      }
    }
  }

  /** The `download` attribute of the link: the name with ".png". */
  function DownloadName(text: string): (r: string)
    ensures r == SanitizedName(text) + ".png"
    ensures |r| <= 54
  {
    SanitizedNameSpec(text);
    SanitizedName(text) + ".png"
  }

  /** JavaScript `Math.round(v / 32) * 32` on an integer v: halves round up,
      so this is floor((v + 16) / 32) * 32. */
  function Snap(v: int): (r: int)
    ensures r % 32 == 0
    ensures r - 16 <= v < r + 16
  {
    (v + 16) / 32 * 32
  }

  /** Snapping a multiple of 32 leaves it alone, so a second snap changes nothing. */
  lemma SnapIdempotent(v: int)
    ensures Snap(Snap(v)) == Snap(v)
  {
    var r := Snap(v);
    var q := (v + 16) / 32;
    assert r == q * 32;
    assert (r + 16) / 32 == q;
  }

  /** The size at which the drag listener regenerates: a change of at least 8 px. */
  predicate FarEnough(current: int, lastSize: int) {
    current - lastSize >= 8 || lastSize - current >= 8
  }

  /** A code as the QRCode library draws it. */
  datatype Code = Code(text: string, size: int, correction: string)

  const EmptyTextError: string := "Please enter some text or URL"
  const NoCodeToSaveError: string := "No QR code to save"

  /** What a regeneration from `text` at `size` and `correction` leaves:
      for blank text the error and the code drawn `before`; after a
      library failure `failure` an empty container and its message; else
      the code of the trimmed text and no error. */
  predicate Regenerated(text: string, size: int, correction: string, failure: Option<string>,
                        before: Option<Code>, code: Option<Code>, error: Option<string>)
  {
    (Trim(text) == [] ==> error == Some(EmptyTextError) && code == before) &&
    (Trim(text) != [] && failure.None? ==> code == Some(Code(Trim(text), size, correction)) && error.None?) &&
    (Trim(text) != [] && failure.Some? ==> code.None? && error == Some("Error generating QR code: " + failure.value))
  }

  /** After any regeneration the page shows a code or an error: a hidden
      error box means the code of the current, non-blank text is drawn. */
  lemma RegeneratedShowsCodeOrError(text: string, size: int, correction: string, failure: Option<string>,
                                    before: Option<Code>, code: Option<Code>, error: Option<string>)
    requires Regenerated(text, size, correction, failure, before, code, error)
    ensures error.None? ==> Trim(text) != [] && code == Some(Code(Trim(text), size, correction))
    ensures code.None? ==> error.Some?
  {
  }

  class QrPage {
    var text: string
    var size: int
    var correction: string
    /** The code in the container, None once a failed generation emptied it. */
    var code: Option<Code>
    var lastSize: int
    /** The size a scheduled regeneration will use (`debounceTimer`). */
    var pending: Option<int>
    /** The message shown, None while the error box is hidden. */
    var error: Option<string>

    /** The page before its first generation. */
    constructor (initialText: string, initialSize: int, initialCorrection: string)
      ensures text == initialText && size == initialSize && correction == initialCorrection
      ensures code.None? && lastSize == 128 && pending.None? && error.None?
    {
      text, size, correction := initialText, initialSize, initialCorrection;
      code := None;
      lastSize := 128;
      pending := None;
      error := None;
    }

    /** `generateQRCode`: blank text shows an error and leaves the drawn
        code as it is; otherwise the container is emptied and a code drawn
        from the trimmed text, unless the library throws (`failure`). */
    method Generate(failure: Option<string>)
      modifies this`code, this`error
      ensures Regenerated(text, size, correction, failure, old(code), code, error)
    {
      var t := Trim(text);
      if t == [] {
        error := Some(EmptyTextError);
        return;
      }
      code := None;
      if failure.None? {
        code := Some(Code(t, size, correction));
        error := None;
      } else {
        error := Some("Error generating QR code: " + failure.value);
      }
    }

    /** The text box's `input` listener: the new text and a regeneration. */
    method EditText(newText: string, failure: Option<string>)
      modifies this`text, this`code, this`error
      ensures text == newText
      ensures Regenerated(newText, size, correction, failure, old(code), code, error)
    {
      text := newText;
      Generate(failure);
    }

    /** The correction level's `change` listener: the new level and a
        regeneration. */
    method ChooseCorrection(newCorrection: string, failure: Option<string>)
      modifies this`correction, this`code, this`error
      ensures correction == newCorrection
      ensures Regenerated(text, size, newCorrection, failure, old(code), code, error)
    {
      correction := newCorrection;
      Generate(failure);
    }

    /** The slider's `input` listener while dragging: a size at least 8 px
        away from the last generated one replaces any scheduled regeneration. */
    method SliderInput(current: int)
      modifies this`size, this`pending
      ensures size == current
      ensures FarEnough(current, lastSize) ==> pending == Some(current)
      ensures !FarEnough(current, lastSize) ==> pending == old(pending)
    {
      size := current;
      if current - lastSize >= 8 || lastSize - current >= 8 {
        pending := Some(current);
      }
    }

    /** The scheduled regeneration runs: the code is drawn at the slider's
        size as it is now, and the size the timer was set for becomes the
        last size. */
    method RunPending(failure: Option<string>)
      modifies this`code, this`error, this`lastSize, this`pending
      ensures old(pending).None? ==>
        code == old(code) && error == old(error) && lastSize == old(lastSize) && pending.None?
      ensures old(pending).Some? ==>
        lastSize == old(pending).value && pending.None? &&
        Regenerated(text, size, correction, failure, old(code), code, error)
    {
      if pending.Some? {
        var current := pending.value;
        Generate(failure);
        lastSize := current;
        pending := None;
      }
    }

    /** The slider's `mouseup` listener: the size snaps to a multiple of 32,
        the code is regenerated, and the snapped size is the last size. */
    method SliderRelease(failure: Option<string>)
      modifies this`size, this`code, this`error, this`lastSize
      ensures size == Snap(old(size)) && lastSize == size
      ensures size % 32 == 0 && size - 16 <= old(size) < size + 16
      ensures Regenerated(text, size, correction, failure, old(code), code, error)
    {
      var rounded := (size + 16) / 32 * 32;
      size := rounded;
      Generate(failure);
      lastSize := rounded;
    }

    /** `saveQRCode`: without a drawn code an error is shown; otherwise the
        image is offered for download under the sanitised name. */
    method Save() returns (downloadName: Option<string>)
      modifies this`error
      ensures code.None? ==> downloadName.None? && error == Some(NoCodeToSaveError)
      ensures code.Some? ==> downloadName == Some(DownloadName(text)) && error == old(error)
    {
      if code.None? {
        error := Some(NoCodeToSaveError);
        return None;
      }
      var filename := Trim(text);
      if filename == [] {
        filename := DefaultName;
      } else {
        filename := Lower(Dashed(filename));
        if |filename| > 50 {
          filename := filename[..50];
        }
      }
      downloadName := Some(filename + ".png");
    }
  }
}
