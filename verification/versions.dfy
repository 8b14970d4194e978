/**
 How the three versions of the record differ: the current `Result`
 (`src/result.rs`), `ResultRepr` (`src/repr.rs`) and the oldest
 `ExecutionResult` (`src/lib.rs`). Each lemma pins one difference down.
 */
module Versions {
  import opened Common
  import Results
  import ResultOps
  import Repr
  import Execution

  function ToRepr<V>(r: Results.Result<V>): (p: Repr.ResultRepr<V>)
    ensures p.uuid == r.uuid && p.retcode == r.retcode && p.stdout == r.stdout && p.stderr == r.stderr && p.retval == r.retval
  {
    Repr.ResultRepr(r.uuid, r.retcode, r.stdout, r.stderr, r.retval)
  }

  /** An output channel as the current version materialises it: an absent channel becomes the empty string. */
  function Materialise(o: Option<string>): (m: Option<string>)
    ensures m.Some?
    ensures o.Some? ==> m == o
  {
    Some(o.GetOr(""))
  }

  /**
   The current combination and the `ResultRepr` one agree on the code, the
   return data and every present output; they differ only in the identifier
   (right operand's versus a new one) and in an output channel both operands
   lack, which the current version turns into `Some("")`.
   */
  lemma CurrentVersusRepr<V>(a: Results.Result<V>, b: Results.Result<V>, id1: Uuid, id2: Uuid)
    ensures var r := ResultOps.Add(a, b, id1);
            var p := Repr.Add(ToRepr(a), ToRepr(b), id2);
            && r.retcode == p.retcode && r.retval == p.retval
            && r.stdout == Materialise(p.stdout) && r.stderr == Materialise(p.stderr)
            && r.uuid == b.uuid && p.uuid == id2
    ensures var r := ResultOps.Add(a, b, id1);
            var p := Repr.Add(ToRepr(a), ToRepr(b), id2);
            && (r.stdout == p.stdout <==> a.stdout.Some? || b.stdout.Some?)
            && (r.stderr == p.stderr <==> a.stderr.Some? || b.stderr.Some?)
  {
  }

  /** Both versions classify every code the same way. */
  lemma SameClassification<V>(r: Results.Result<V>)
    ensures Results.IsError(r) <==> Repr.IsError(ToRepr(r))
  {
  }

  /**
   Folding three results where only the last writes stdout: `ResultRepr`
   yields that output, while the current version has turned the first two
   absent channels into `Some("")` and so yields it after a stray newline.
   */
  lemma FoldStrayNewline<V>(u: Uuid, m: map<string, V>, x: string, newId: Uuid)
    ensures var none := Results.Result(u, 0, None, None, m);
            var some := Results.Result(u, 0, Some(x), None, m);
            && ResultOps.Sum(none, [none, some], newId).stdout == Some("\n" + x)
            && Repr.Sum(ToRepr(none), [ToRepr(none), ToRepr(some)], newId).stdout == Some(x)
  {
    var none := Results.Result(u, 0, None, None, m);
    var some := Results.Result(u, 0, Some(x), None, m);
    var r1 := ResultOps.Add(none, none, newId);
    var r2 := ResultOps.Add(r1, some, newId);
    assert [none, some][1..] == [some];
    assert [some][1..] == [];
    assert ResultOps.Sum(none, [none, some], newId) == ResultOps.Sum(r1, [some], newId) == r2;
    assert "" + "\n" + x == "\n" + x;
    var p1 := Repr.Add(ToRepr(none), ToRepr(none), newId);
    var p2 := Repr.Add(p1, ToRepr(some), newId);
    assert [ToRepr(none), ToRepr(some)][1..] == [ToRepr(some)];
    assert [ToRepr(some)][1..] == [];
    assert Repr.Sum(ToRepr(none), [ToRepr(none), ToRepr(some)], newId) == Repr.Sum(p1, [ToRepr(some)], newId) == p2;
  }

  /** The oldest classification flags exactly code 0, which the newer ones call a success; no code is an error under both. */
  lemma ClassificationsDisjoint<V>(e: Execution.ExecutionResult<V>, r: Results.Result<V>)
    requires e.retcode == r.retcode
    ensures !(Execution.IsError(e) && Results.IsError(r))
    ensures Execution.IsError(e) <==> e.retcode == 0
  {
  }

  /** The oldest merge lets the left map win; the current combination lets the right one win. */
  lemma MergeMapBiasReversed<V>(e1: Execution.ExecutionResult<V>, e2: Execution.ExecutionResult<V>,
                                r1: Results.Result<V>, r2: Results.Result<V>, newId: Uuid)
    requires r1.retval == e1.retval && r2.retval == e2.retval
    ensures Execution.Merge(e1, e2).retval == ResultOps.Add(r2, r1, newId).retval
  {
  }

  /** Only the oldest merge gives a result back when merged with itself. */
  lemma OnlyOldestIsIdempotent<V>(e: Execution.ExecutionResult<V>, r: Results.Result<V>, newId: Uuid)
    ensures Execution.Merge(e, e) == e
    ensures ResultOps.Add(r, r, newId) != r
  {
    Execution.MergeIdempotent(e);
    ResultOps.AddNotIdempotent(r, newId);
  }
}
