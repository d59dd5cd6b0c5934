/** What the two tempo calculators share: the queue of the last edited
    input fields, the test `parseFloat` makes of a field's text, and the
    order in which `solve` and `calculate` pick the field to solve for. */
module EditQueue {
  import opened Common
  import opened Seqs
  import opened Text

  /** The three input fields, by their element ids. */
  datatype Field = OldBpm | Pitch | NewBpm {
    function Id(): string {
      match this
      case OldBpm => "old-bpm"
      case Pitch => "pitch"
      case NewBpm => "new-bpm"
    }
  }

  /** `updateLastEdited(x)`: every x is removed, x put at the front, and the
      last entry dropped when that makes more than three. */
  function MoveToFront<T(==)>(q: seq<T>, x: T): seq<T> {
    var r := [x] + Without(q, x);
    if |r| > 3 then r[..|r| - 1] else r
  }

  /** `q.filter(id => id !== x)`. */
  function Without<T(==)>(q: seq<T>, x: T): seq<T> {
    Filter(q, (y: T) => y != x)
  }

  /** After MoveToFront, x is at the front and nowhere else, and a queue of
      at most three stays at most three long. */
  lemma MoveToFrontFront<T>(q: seq<T>, x: T)
    ensures |MoveToFront(q, x)| > 0 && MoveToFront(q, x)[0] == x
    ensures forall k :: 0 < k < |MoveToFront(q, x)| ==> MoveToFront(q, x)[k] != x
    ensures |q| <= 3 ==> |MoveToFront(q, x)| <= 3
  {
    var f := Without(q, x);
    var r := [x] + f;
    forall k | 0 < k < |MoveToFront(q, x)| ensures MoveToFront(q, x)[k] != x {
      assert MoveToFront(q, x)[k] == r[k] == f[k - 1];
    }
  }

  /** On a queue of three distinct entries, moving one of them to the front
      keeps the other two in their order, and a new entry pushes the last
      one out. */
  lemma MoveToFrontOfThree<T>(a: T, b: T, c: T, x: T)
    requires a != b && b != c && a != c
    ensures x == a ==> MoveToFront([a, b, c], x) == [a, b, c]
    ensures x == b ==> MoveToFront([a, b, c], x) == [b, a, c]
    ensures x == c ==> MoveToFront([a, b, c], x) == [c, a, b]
    ensures x != a && x != b && x != c ==> MoveToFront([a, b, c], x) == [x, a, b]
  {
    var keep := (y: T) => y != x;
    assert [a, b, c][1..] == [b, c] && [b, c][1..] == [c] && [c][1..] == [];
    assert Filter([a, b, c], keep) == (if a != x then [a] else []) + Filter([b, c], keep);
    assert Filter([b, c], keep) == (if b != x then [b] else []) + Filter([c], keep);
    assert Filter([c], keep) == (if c != x then [c] else []) + Filter([], keep);
  }

  /** The queue holds each of the three fields exactly once. */
  ghost predicate IsQueue(q: seq<Field>) {
    |q| == 3 && NoDuplicates(q)
  }

  /** A queue of all three fields stays one after any field is moved to the
      front, with the same fields; the field it then names last is never
      the one just edited. */
  lemma QueuePermutation(q: seq<Field>, x: Field)
    requires IsQueue(q)
    ensures IsQueue(MoveToFront(q, x)) && multiset(MoveToFront(q, x)) == multiset(q)
    ensures MoveToFront(q, x)[2] != x
  {
    var a, b, c := q[0], q[1], q[2];
    assert q == [a, b, c];
    assert a != b && b != c && a != c;
    EveryFieldQueued(a, b, c, x);
    MoveToFrontOfThree(a, b, c, x);
    if x == a {
      assert MoveToFront(q, x) == q;
    } else if x == b {
      SwapFrontIsQueue(a, b, c);
    } else {
      RotateIsQueue(a, b, c);
    }
  }

  lemma SwapFrontIsQueue(a: Field, b: Field, c: Field)
    requires a != b && b != c && a != c
    ensures IsQueue([b, a, c]) && multiset([b, a, c]) == multiset([a, b, c])
  {
    assert [b, a, c] == [b] + [a] + [c] && [a, b, c] == [a] + [b] + [c];
  }

  lemma RotateIsQueue(a: Field, b: Field, c: Field)
    requires a != b && b != c && a != c
    ensures IsQueue([c, a, b]) && multiset([c, a, b]) == multiset([a, b, c])
  {
    assert [c, a, b] == [c] + [a] + [b] && [a, b, c] == [a] + [b] + [c];
  }

  /** Three distinct fields are all three fields. */
  lemma EveryFieldQueued(a: Field, b: Field, c: Field, x: Field)
    requires a != b && b != c && a != c
    ensures x == a || x == b || x == c
  {
  }

  /** The initial queue. */
  const InitialQueue: seq<Field> := [OldBpm, Pitch, NewBpm]

  lemma InitialQueueIsQueue()
    ensures IsQueue(InitialQueue) && IsQueue([OldBpm, NewBpm, Pitch])
  {
  }

  /** `parseFloat(s)` is a number (not NaN): after leading white space and
      an optional sign comes a digit, a point followed by a digit, or
      `Infinity`. */
  predicate ParsesToNumber(s: string) {
    var t := TrimStart(s);
    var u := if |t| > 0 && (t[0] == '+' || t[0] == '-') then t[1..] else t;
    (|u| > 0 && IsDigit(u[0])) || (|u| > 1 && u[0] == '.' && IsDigit(u[1])) || StartsWith(u, "Infinity")
  }

  /** A field cleared to `null` reads as NaN. */
  lemma EmptyIsNaN()
    ensures !ParsesToNumber("")
  {
  }

  /** The unknown `solve` computes: old-bpm when it is NaN, else the pitch
      when it is NaN, else new-bpm when it is NaN. None when all three are
      numbers: `result` stays undefined and `toFixed` throws. */
  function SolveFor(oldNaN: bool, pitchNaN: bool, newNaN: bool): (r: Option<Field>)
    ensures r == Some(OldBpm) <==> oldNaN
    ensures r == Some(Pitch) <==> !oldNaN && pitchNaN
    ensures r == Some(NewBpm) <==> !oldNaN && !pitchNaN && newNaN
    ensures r.None? <==> !oldNaN && !pitchNaN && !newNaN
  {
    if oldNaN then Some(OldBpm)
    else if pitchNaN then Some(Pitch)
    else if newNaN then Some(NewBpm)
    else None
  }

  /** The field `calculate` writes `result` into, tested in its own
      `else if` chain: none for the text "NaN". */
  function WriteTarget(result: string, oldNaN: bool, pitchNaN: bool, newNaN: bool): Option<Field> {
    if result == "NaN" then None
    else if oldNaN then Some(OldBpm)
    else if pitchNaN then Some(Pitch)
    else if newNaN then Some(NewBpm)
    else None
  }

  /** `calculate` writes into the very field `solve` solved for, and writes
      nothing exactly when the result is "NaN" or `solve` had nothing to solve. */
  lemma WriteTargetIsSolved(result: string, oldNaN: bool, pitchNaN: bool, newNaN: bool)
    ensures WriteTarget(result, oldNaN, pitchNaN, newNaN) ==
            if result == "NaN" then None else SolveFor(oldNaN, pitchNaN, newNaN)
  {
  }

  /** The texts of the three input fields. */
  datatype Inputs = Inputs(oldBpm: string, pitch: string, newBpm: string) {
    function Get(f: Field): string {
      match f
      case OldBpm => oldBpm
      case Pitch => pitch
      case NewBpm => newBpm
    }

    /** The inputs with field f set to s. */
    function Set(f: Field, s: string): (r: Inputs)
      ensures r.Get(f) == s
      ensures forall g :: g != f ==> r.Get(g) == Get(g)
    {
      match f
      case OldBpm => this.(oldBpm := s)
      case Pitch => this.(pitch := s)
      case NewBpm => this.(newBpm := s)
    }

    /** The unknown `solve` picks for these inputs. */
    function Unknown(): Option<Field> {
      SolveFor(!ParsesToNumber(oldBpm), !ParsesToNumber(pitch), !ParsesToNumber(newBpm))
    }
  }

  /** The inputs once `result`, the text `solve` returned, is shown: in the
      field solved for, unless the text is "NaN" or there was no unknown.
      `result` is None when `solve` throws instead (`toFixed` raises a
      RangeError for a number of decimal places outside 0..100), and then
      nothing is written. */
  function Solved(v: Inputs, result: Option<string>): (r: Inputs)
    ensures result.None? || v.Unknown().None? || result.value == "NaN" ==> r == v
    ensures result.Some? && v.Unknown().Some? && result.value != "NaN" ==>
      r.Get(v.Unknown().value) == result.value && forall g :: g != v.Unknown().value ==> r.Get(g) == v.Get(g)
  {
    var u := v.Unknown();
    if result.None? || u.None? || result.value == "NaN" then v else v.Set(u.value, result.value)
  }

  /** Once a field has been cleared there is always an unknown to solve for:
      the cleared field or one before it in solve's order. */
  lemma ClearedIsSolvable(v: Inputs, g: Field)
    ensures v.Set(g, "").Unknown().Some?
  {
    var w := v.Set(g, "");
    EmptyIsNaN();
    assert !ParsesToNumber(w.Get(g));
  }
}
