/** The tempo and pitch calculator: the BPM calculator with a choice of
    pitch notation (cents, semitones or a frequency ratio). */
module TempoCalc {
  import opened Common
  import opened Seqs
  import opened EditQueue

  /** `solve`'s conversion of the pitch into cents before solving: ×100 for
      semitones, 1200·log2 for a ratio, unchanged otherwise (cents); `log2`
      stands for `Math.log2`. */
  function ToCents(pitch: real, pitchType: string, log2: real -> real): real {
    if pitchType == "semitones" then pitch * 100.0
    else if pitchType == "ratio" then 1200.0 * log2(pitch)
    else pitch
  }

  /** A solved pitch, computed in cents, converted back: ÷100 for
      semitones, 2^(c/1200) for a ratio; `exp2` stands for `2 **`. */
  function FromCents(cents: real, pitchType: string, exp2: real -> real): real {
    if pitchType == "semitones" then cents / 100.0
    else if pitchType == "ratio" then exp2(cents / 1200.0)
    else cents
  }

  /** A solved pitch is given back in the notation it is entered in:
      converting to cents and back is the identity (for a ratio, as far as
      `2 **` undoes `Math.log2`). */
  lemma CentsRoundTrip(pitch: real, pitchType: string, log2: real -> real, exp2: real -> real)
    requires pitchType == "ratio" ==> exp2(log2(pitch)) == pitch
    ensures FromCents(ToCents(pitch, pitchType, log2), pitchType, exp2) == pitch
  {
    if pitchType == "ratio" {
      assert 1200.0 * log2(pitch) / 1200.0 == log2(pitch);
    }
  }

  /** The label shown next to the pitch field for a notation, if it has one. */
  function PitchLabel(pitchType: string, current: string): (r: string)
    ensures pitchType in {"semitones", "cents", "ratio"} ==> r == pitchType
    ensures pitchType !in {"semitones", "cents", "ratio"} ==> r == current
  {
    if pitchType == "semitones" then "semitones"
    else if pitchType == "cents" then "cents"
    else if pitchType == "ratio" then "ratio"
    else current
  }

  /** The queue a notation change installs: the pitch last, so it is the
      field cleared and solved for. */
  const NotationQueue: seq<Field> := [OldBpm, NewBpm, Pitch]

  class Calculator {
    var inputs: Inputs
    var lastEdited: seq<Field>
    /** The `pitch-notation-select` value and the pitch label's text. */
    var pitchType: string
    var pitchLabel: string

    ghost predicate Valid()
      reads this`lastEdited
    {
      IsQueue(lastEdited)
    }

    constructor (initialPitchType: string, initialLabel: string)
      ensures Valid() && inputs == Inputs("", "", "") && lastEdited == InitialQueue
      ensures pitchType == initialPitchType && pitchLabel == initialLabel
    {
      inputs := Inputs("", "", "");
      lastEdited := InitialQueue;
      pitchType, pitchLabel := initialPitchType, initialLabel;
    }

    /** `updateLastEdited`: filter out the id, `unshift` it, and `pop` when
        the queue has grown past three. */
    method UpdateLastEdited(x: Field)
      modifies this`lastEdited
      ensures lastEdited == MoveToFront(old(lastEdited), x)
    {
      lastEdited := Without(lastEdited, x);
      lastEdited := [x] + lastEdited;
      if |lastEdited| > 3 {
        lastEdited := lastEdited[..|lastEdited| - 1];
      }
    }

    /** `calculate`, given the text `solve` returns for the current fields
        and notation (None when it throws, and nothing is written). `solve` tests the pitch after its conversion to cents;
        for semitones and cents that is NaN exactly when the pitch is. */
    method Calculate(result: Option<string>)
      modifies this`inputs
      ensures inputs == Solved(old(inputs), result)
    {
      if result.None? {
        return;
      }
      var text := result.value;
      var oldNaN := !ParsesToNumber(inputs.oldBpm);
      var pitchNaN := !ParsesToNumber(inputs.pitch);
      var newNaN := !ParsesToNumber(inputs.newBpm);
      WriteTargetIsSolved(text, oldNaN, pitchNaN, newNaN);
      if text == "NaN" {
      } else if oldNaN {
        inputs := inputs.Set(OldBpm, text);
      } else if pitchNaN {
        inputs := inputs.Set(Pitch, text);
      } else if newNaN {
        inputs := inputs.Set(NewBpm, text);
      }
    }

    /** The field named last in the queue is emptied (`value = null`). */
    method ClearLast()
      requires Valid()
      modifies this`inputs
      ensures inputs == old(inputs).Set(lastEdited[2], "")
    {
      inputs := inputs.Set(lastEdited[2], "");
    }

    /** `handleInputChange` after the user typed `text` into field f: f goes
        to the front of the queue, the field now last is cleared, and the
        unknown is solved for. The cleared field is never f. */
    method HandleInput(f: Field, text: string, result: Option<string>)
      requires Valid()
      modifies this`inputs, this`lastEdited
      ensures Valid() && lastEdited == MoveToFront(old(lastEdited), f) && lastEdited[2] != f
      ensures var typed := old(inputs).Set(f, text).Set(lastEdited[2], "");
        inputs == Solved(typed, result) && typed.Unknown().Some?
    {
      inputs := inputs.Set(f, text);
      UpdateLastEdited(f);
      QueuePermutation(old(lastEdited), f);
      ClearLast();
      ClearedIsSolvable(old(inputs).Set(f, text), lastEdited[2]);
      Calculate(result);
    }

    /** `handleInputChangeDecimal`: the queue stays, its last field is
        cleared and solved for again. */
    method HandleDecimalPlaces(result: Option<string>)
      requires Valid()
      modifies this`inputs
      ensures Valid()
      ensures inputs == Solved(old(inputs).Set(lastEdited[2], ""), result)
      ensures old(inputs).Set(lastEdited[2], "").Unknown().Some?
    {
      ClearLast();
      ClearedIsSolvable(old(inputs), lastEdited[2]);
      Calculate(result);
    }

    /** `handleInputChangeNotation`: the queue becomes old-bpm, new-bpm,
        pitch, the label follows the notation, the pitch is cleared and
        solved for in the new notation. */
    method HandleNotation(newPitchType: string, result: Option<string>)
      modifies this`inputs, this`lastEdited, this`pitchType, this`pitchLabel
      ensures Valid() && lastEdited == NotationQueue && pitchType == newPitchType
      ensures pitchLabel == PitchLabel(newPitchType, old(pitchLabel))
      ensures inputs == Solved(old(inputs).Set(Pitch, ""), result)
      ensures old(inputs).Set(Pitch, "").Unknown().Some?
    {
      pitchType := newPitchType;
      lastEdited := NotationQueue;
      InitialQueueIsQueue();
      pitchLabel := PitchLabel(newPitchType, pitchLabel);
      ClearLast();
      ClearedIsSolvable(old(inputs), Pitch);
      Calculate(result);
    }
  }
}
