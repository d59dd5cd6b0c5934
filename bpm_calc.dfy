/** The BPM calculator: three fields (old tempo, pitch change in cents,
    new tempo), of which the one edited longest ago is cleared and solved
    for from the other two. */
module BpmCalc {
  import opened Common
  import opened Seqs
  import opened EditQueue

  class Calculator {
    var inputs: Inputs
    /** `lastEdited`: the fields, most recently edited first. */
    var lastEdited: seq<Field>

    ghost predicate Valid()
      reads this`lastEdited
    {
      IsQueue(lastEdited)
    }

    /** The page as loaded: empty fields and the queue old-bpm, pitch, new-bpm. */
    constructor ()
      ensures Valid() && inputs == Inputs("", "", "") && lastEdited == InitialQueue
    {
      inputs := Inputs("", "", "");
      lastEdited := InitialQueue;
    }

    /** `updateLastEdited`: filter out the id, `unshift` it, and `pop` when
        the queue has grown past three. */
    method UpdateLastEdited(x: Field)
      modifies this`lastEdited
      ensures lastEdited == MoveToFront(old(lastEdited), x)
    {
      lastEdited := Without(lastEdited, x);
      lastEdited := [x] + lastEdited;
      if |lastEdited| > 3 {
        lastEdited := lastEdited[..|lastEdited| - 1];
      }
    }

    /** `calculate`, given the text `solve` returns for the current fields
        (None when it throws, and nothing is written): its own `else if`
        chain picks the field to write. */
    method Calculate(result: Option<string>)
      modifies this`inputs
      ensures inputs == Solved(old(inputs), result)
    {
      if result.None? {
        return;
      }
      var text := result.value;
      var oldNaN := !ParsesToNumber(inputs.oldBpm);
      var pitchNaN := !ParsesToNumber(inputs.pitch);
      var newNaN := !ParsesToNumber(inputs.newBpm);
      WriteTargetIsSolved(text, oldNaN, pitchNaN, newNaN);
      if text == "NaN" {
      } else if oldNaN {
        inputs := inputs.Set(OldBpm, text);
      } else if pitchNaN {
        inputs := inputs.Set(Pitch, text);
      } else if newNaN {
        inputs := inputs.Set(NewBpm, text);
      }
    }

    /** The field named last in the queue is emptied (`value = null`). */
    method ClearLast()
      requires Valid()
      modifies this`inputs
      ensures inputs == old(inputs).Set(lastEdited[2], "")
    {
      inputs := inputs.Set(lastEdited[2], "");
    }

    /** `handleInputChange` after the user typed `text` into field f: f goes
        to the front of the queue, the field now last is cleared, and the
        unknown is solved for, with `result` the text `solve` returns. The
        cleared field is never f, and there is always an unknown. */
    method HandleInput(f: Field, text: string, result: Option<string>)
      requires Valid()
      modifies this`inputs, this`lastEdited
      ensures Valid() && lastEdited == MoveToFront(old(lastEdited), f) && lastEdited[2] != f
      ensures var typed := old(inputs).Set(f, text).Set(lastEdited[2], "");
        inputs == Solved(typed, result) && typed.Unknown().Some?
    {
      inputs := inputs.Set(f, text);
      UpdateLastEdited(f);
      QueuePermutation(old(lastEdited), f);
      ClearLast();
      ClearedIsSolvable(old(inputs).Set(f, text), lastEdited[2]);
      Calculate(result);
    }

    /** `handleInputChangeDecimal`: the decimal places changed; the queue
        stays, its last field is cleared and solved for again. */
    method HandleDecimalPlaces(result: Option<string>)
      requires Valid()
      modifies this`inputs
      ensures Valid()
      ensures inputs == Solved(old(inputs).Set(lastEdited[2], ""), result)
      ensures old(inputs).Set(lastEdited[2], "").Unknown().Some?
    {
      ClearLast();
      ClearedIsSolvable(old(inputs), lastEdited[2]);
      Calculate(result);
    }
  }
}
