/** Values shared by every part of the ROI export engine: optional values, the
    failure-compatible result of an export step, its errors, the diagnostics log,
    and the string helpers the engine uses. */
module Common {

  datatype Option<+T> = None | Some(value: T)

  /** Everything that makes the export of one image stop. In the script each of
      these is an uncaught Python exception. */
  datatype ExportError =
    | StatsServiceFailure(reason: string)   // the statistics service raised
    | StatsIndexOutOfRange(position: nat)   // a statistics array shorter than the channel list
    | NotANumber(token: string)             // float() refused a token of a point list
    | MissingCoordinate                     // a point of a point list has no second number

  datatype Result<+T> = Ok(value: T) | Err(error: ExportError) {
    predicate IsFailure() { Err? }
    function PropagateFailure<U>(): Result<U> requires Err? { Err(error) }
    function Extract(): T requires Ok? { value }
  }

  /** The messages the script adds to its log, kept as values. */
  datatype Diagnostic =
    | ProcessingImages(count: nat)                   // "Processing %s images..."
    | ImageStart(imageId: int)                       // "Image ID %s..."
    | ChannelOutOfRange(channel: int, sizeC: int)    // "Channel index: %s out of range 1 - %s"

  function Last<T>(s: seq<T>): T
    requires |s| > 0
  {
    s[|s| - 1]
  }

  function DropLast<T>(s: seq<T>): seq<T>
    requires |s| > 0
  {
    s[..|s| - 1]
  }

  /** `sep.join(parts)` */
  function Join(parts: seq<string>, sep: char): (r: string)
    ensures parts == [] ==> r == ""
    ensures |parts| == 1 ==> r == parts[0]
  {
    if parts == [] then ""
    else if |parts| == 1 then parts[0]
    else parts[0] + [sep] + Join(parts[1..], sep)
  }

  /** `s.replace(from, to)` for single characters. */
  function ReplaceChar(s: string, from: char, to: char): (r: string)
    ensures |r| == |s|
    ensures forall i :: 0 <= i < |s| ==> r[i] == (if s[i] == from then to else s[i])
  {
    if s == [] then [] else [if s[0] == from then to else s[0]] + ReplaceChar(s[1..], from, to)
  }

  /** `'"%s"' % s` */
  function Quote(s: string): string
  {
    "\"" + s + "\""
  }

  // ---------------------------------------------------------------------------
  // A loop that extends a list with the items of each step and stops at the
  // first step that raises

  /** The items of every step in order, or the failure of the first step that fails. */
  function Concat<T>(steps: seq<Result<seq<T>>>): Result<seq<T>>
  {
    if steps == [] then Ok([])
    else
      var items :- Concat(DropLast(steps));
      var more :- Last(steps);
      Ok(items + more)
  }

  /** One more successful step appends its items. */
  lemma ConcatStep<T>(steps: seq<Result<seq<T>>>, i: nat, items: seq<T>)
    requires i < |steps| && Concat(steps[..i]) == Ok(items) && steps[i].Ok?
    ensures Concat(steps[..i + 1]) == Ok(items + steps[i].value)
  {
    assert DropLast(steps[..i + 1]) == steps[..i];
  }

  /** A failing step after successful ones is the failure of the whole loop. */
  lemma {:induction false} ConcatFailure<T>(steps: seq<Result<seq<T>>>, i: nat)
    requires i < |steps| && Concat(steps[..i]).Ok? && steps[i].Err?
    ensures Concat(steps) == Err(steps[i].error)
    decreases |steps|
  {
    if i + 1 == |steps| {
      assert DropLast(steps) == steps[..i];
    } else {
      assert DropLast(steps)[..i] == steps[..i];
      ConcatFailure(DropLast(steps), i);
    }
  }

  /** A failing step after successful ones fails the prefix it ends. */
  lemma ConcatStepFailure<T>(steps: seq<Result<seq<T>>>, i: nat)
    requires i < |steps| && Concat(steps[..i]).Ok? && steps[i].Err?
    ensures Concat(steps[..i + 1]) == Err(steps[i].error)
  {
    assert DropLast(steps[..i + 1]) == steps[..i];
  }

  /** Once a prefix of the steps has failed, the later steps change nothing. */
  lemma {:induction false} ConcatPrefixFailure<T>(steps: seq<Result<seq<T>>>, i: nat)
    requires i <= |steps| && Concat(steps[..i]).Err?
    ensures Concat(steps) == Concat(steps[..i])
    decreases |steps|
  {
    if i < |steps| {
      assert DropLast(steps)[..i] == steps[..i];
      ConcatPrefixFailure(DropLast(steps), i);
    } else {
      assert steps[..i] == steps;
    }
  }

  /** The loop succeeds exactly when every step does. */
  lemma {:induction false} ConcatOk<T>(steps: seq<Result<seq<T>>>)
    ensures Concat(steps).Ok? <==> forall k :: 0 <= k < |steps| ==> steps[k].Ok?
  {
    if steps != [] {
      ConcatOk(DropLast(steps));
      assert forall k :: 0 <= k < |steps| - 1 ==> DropLast(steps)[k] == steps[k];
    }
  }

  /** The number of items in n blocks of k items each (n * k, see BlocksProduct). */
  function Blocks(n: nat, k: nat): nat
  {
    if n == 0 then 0 else Blocks(n - 1, k) + k
  }

  lemma {:induction false} BlocksProduct(n: nat, k: nat)
    ensures Blocks(n, k) == n * k
  {
    if n > 0 {
      BlocksProduct(n - 1, k);
      assert n * k == (n - 1) * k + k;
    }
  }

  /** Position c of block i, in a run of blocks of k items each. */
  function BlockPos(i: nat, k: nat, c: nat): nat
  {
    Blocks(i, k) + c
  }

  /** When every step gives k items, the loop gives |steps| blocks of k items. */
  lemma {:induction false} ConcatUniform<T>(steps: seq<Result<seq<T>>>, k: nat)
    requires Concat(steps).Ok?
    requires forall i :: 0 <= i < |steps| && steps[i].Ok? ==> |steps[i].value| == k
    ensures |Concat(steps).value| == Blocks(|steps|, k)
  {
    if steps != [] {
      var front := DropLast(steps);
      assert forall i :: 0 <= i < |front| ==> front[i] == steps[i];
      ConcatUniform(front, k);
    }
  }

  /** When every step gives k items, item c of step i sits at position
      BlockPos(i, k, c) of the loop's items. */
  lemma {:induction false} ConcatAt<T>(steps: seq<Result<seq<T>>>, k: nat, i: nat, c: nat)
    requires Concat(steps).Ok?
    requires forall j :: 0 <= j < |steps| && steps[j].Ok? ==> |steps[j].value| == k
    requires i < |steps| && c < k
    ensures steps[i].Ok? && BlockPos(i, k, c) < |Concat(steps).value|
    ensures Concat(steps).value[BlockPos(i, k, c)] == steps[i].value[c]
    decreases |steps|
  {
    ConcatOk(steps);
    var n := |steps|;
    var front := DropLast(steps);
    assert forall j :: 0 <= j < |front| ==> front[j] == steps[j];
    ConcatUniform(front, k);
    var items := Concat(front).value;
    assert Concat(steps).value == items + Last(steps).value;
    if i < n - 1 {
      ConcatAt(front, k, i, c);
      IndexInBlock(i, n - 1, k, c);
    }
  }

  /** When every step gives one item, item c of the loop is the item of step c. */
  lemma ConcatSingles<T>(steps: seq<Result<seq<T>>>)
    requires Concat(steps).Ok?
    requires forall j :: 0 <= j < |steps| && steps[j].Ok? ==> |steps[j].value| == 1
    ensures |Concat(steps).value| == |steps|
    ensures forall c :: 0 <= c < |steps| ==> steps[c].Ok? && Concat(steps).value[c] == steps[c].value[0]
  {
    ConcatUniform(steps, 1);
    BlocksProduct(|steps|, 1);
    forall c | 0 <= c < |steps|
      ensures steps[c].Ok? && Concat(steps).value[c] == steps[c].value[0]
    {
      ConcatAt(steps, 1, c, 0);
      BlocksProduct(c, 1);
    }
  }

  /** Position c of block i lies before block n. */
  lemma {:induction false} IndexInBlock(i: nat, n: nat, k: nat, c: nat)
    requires i < n && c < k
    ensures BlockPos(i, k, c) < Blocks(n, k)
    decreases n
  {
    if i < n - 1 {
      IndexInBlock(i, n - 1, k, c);
    }
  }

  /** Every item of the loop comes from some step, and every item of every step
      is in the loop. */
  lemma {:induction false} ConcatMembers<T>(steps: seq<Result<seq<T>>>, x: T)
    requires Concat(steps).Ok?
    ensures x in Concat(steps).value <==> exists k :: 0 <= k < |steps| && steps[k].Ok? && x in steps[k].value
  {
    if steps != [] {
      ConcatMembers(DropLast(steps), x);
      assert forall k :: 0 <= k < |steps| - 1 ==> DropLast(steps)[k] == steps[k];
    }
  }
}
