/**
 The oldest record, `ExecutionResult` of `src/lib.rs`: plain (non-optional)
 output strings, an identifier kept as text, an error classification that
 flags code 0, and a `merge` that keeps the left identifier, lets a non-empty
 right output replace the left one, and lets the left map win on shared keys.
 */
module Execution {
  import opened Common

  datatype ExecutionResult<V> = ExecutionResult(uuid: string, retcode: u16, stdout: string, stderr: string, retval: map<string, V>)

  /** The external error of the optional `cdumay-errors` feature: code, message and extra data. */
  datatype LegacyError<V> = LegacyError(code: u16, message: string, extra: map<string, V>)

  /** The default `BaseResult::is_error`: true exactly for code 0, so every other code counts as a success. */
  function IsError<V>(r: ExecutionResult<V>): (b: bool)
    ensures b <==> r.retcode == 0
    ensures b ==> !(r.retcode >= 300 || r.retcode == 1)
  {
    match r.retcode
    case 0 => true
    case _ => false
  }

  /**
   `ExecutionResult::new`: every absent argument takes its default (code 0,
   empty outputs, empty map); `newId` stands for `random_uuid()`.
   */
  function New<V>(retcode: Option<u16>, stdout: Option<string>, stderr: Option<string>,
                  retval: Option<map<string, V>>, uuid: Option<string>, newId: string): (r: ExecutionResult<V>)
    ensures uuid.Some? ==> r.uuid == uuid.value
    ensures uuid.None? ==> r.uuid == newId
    ensures retcode.Some? ==> r.retcode == retcode.value
    ensures retcode.None? ==> r.retcode == 0
    ensures stdout.Some? ==> r.stdout == stdout.value
    ensures stdout.None? ==> r.stdout == ""
    ensures stderr.Some? ==> r.stderr == stderr.value
    ensures stderr.None? ==> r.stderr == ""
    ensures retval.Some? ==> r.retval == retval.value
    ensures retval.None? ==> r.retval == map[]
  {
    ExecutionResult(uuid.GetOr(newId), retcode.GetOr(0), stdout.GetOr(""), stderr.GetOr(""), retval.GetOr(map[]))
  }

  /** `empty()`: `new` with every argument absent. */
  function Empty<V>(newId: string): (r: ExecutionResult<V>)
    ensures r.uuid == newId && r.retcode == 0 && r.stdout == "" && r.stderr == "" && r.retval == map[]
    ensures IsError(r)
  {
    New(None, None, None, None, None, newId)
  }

  /**
   `new` loses nothing: handing it every field of a record rebuilds that record,
   whatever random identifier was drawn.
   */
  lemma NewRebuilds<V>(r: ExecutionResult<V>, newId: string)
    ensures New(Some(r.retcode), Some(r.stdout), Some(r.stderr), Some(r.retval), Some(r.uuid), newId) == r
  {
  }

  /** `print`: appends one line to stdout and touches nothing else. */
  function Print<V>(r: ExecutionResult<V>, data: string): (r': ExecutionResult<V>)
    ensures r'.stdout == r.stdout + data + "\n"
    ensures r'.uuid == r.uuid && r'.retcode == r.retcode && r'.stderr == r.stderr && r'.retval == r.retval
  {
    r.(stdout := r.stdout + data + "\n")
  }

  /** `print_err`: appends one line to stderr and touches nothing else. */
  function PrintErr<V>(r: ExecutionResult<V>, data: string): (r': ExecutionResult<V>)
    ensures r'.stderr == r.stderr + data + "\n"
    ensures r'.uuid == r.uuid && r'.retcode == r.retcode && r'.stdout == r.stdout && r'.retval == r.retval
  {
    r.(stderr := r.stderr + data + "\n")
  }

  /** Printing to one channel and to the other can happen in either order. */
  lemma PrintCommutesWithPrintErr<V>(r: ExecutionResult<V>, out: string, err: string)
    ensures Print(PrintErr(r, err), out) == PrintErr(Print(r, out), err)
  {
  }

  /** Several `print` calls in a row. */
  function PrintAll<V>(r: ExecutionResult<V>, lines: seq<string>): ExecutionResult<V>
    decreases |lines|
  {
    if lines == [] then r else PrintAll(Print(r, lines[0]), lines[1..])
  }

  /** The lines as they end up in stdout: each followed by a newline. */
  function Terminated(lines: seq<string>): string {
    if lines == [] then "" else lines[0] + "\n" + Terminated(lines[1..])
  }

  /** Printed lines accumulate in order after the earlier stdout; nothing else changes. */
  lemma {:induction false} PrintAllAppends<V>(r: ExecutionResult<V>, lines: seq<string>)
    ensures PrintAll(r, lines) == r.(stdout := r.stdout + Terminated(lines))
    decreases |lines|
  {
    if lines != [] {
      PrintAllAppends(Print(r, lines[0]), lines[1..]);
      assert r.stdout + lines[0] + "\n" + Terminated(lines[1..]) == r.stdout + Terminated(lines);
    }
  }

  /**
   `merge`: the left identifier, the larger code, the right output when it is
   non-empty (no concatenation), and a union in which the left map wins.
   */
  function Merge<V>(a: ExecutionResult<V>, b: ExecutionResult<V>): (r: ExecutionResult<V>)
    ensures r.uuid == a.uuid
    ensures a.retcode <= r.retcode && b.retcode <= r.retcode
    ensures r.retcode == a.retcode || r.retcode == b.retcode
    ensures |b.stdout| > 0 ==> r.stdout == b.stdout
    ensures |b.stdout| == 0 ==> r.stdout == a.stdout
    ensures |b.stderr| > 0 ==> r.stderr == b.stderr
    ensures |b.stderr| == 0 ==> r.stderr == a.stderr
    ensures r.retval.Keys == a.retval.Keys + b.retval.Keys
    ensures forall k :: k in a.retval ==> r.retval[k] == a.retval[k]
    ensures forall k :: k in b.retval && k !in a.retval ==> r.retval[k] == b.retval[k]
  {
    ExecutionResult(
      a.uuid,
      Max(a.retcode, b.retcode),
      if |b.stdout| > 0 then b.stdout else a.stdout,
      if |b.stderr| > 0 then b.stderr else a.stderr,
      UnionLeftWins(a.retval, b.retval))
  }

  /**
   The two loops that build the merged map: every left entry is inserted,
   then each right entry whose key is not yet present. Keys are visited in any order.
   */
  method MergeRetval<V>(a: ExecutionResult<V>, b: ExecutionResult<V>) returns (merge: map<string, V>)
    ensures merge.Keys == a.retval.Keys + b.retval.Keys
    ensures forall k :: k in a.retval ==> merge[k] == a.retval[k]
    ensures forall k :: k in b.retval && k !in a.retval ==> merge[k] == b.retval[k]
  {
    merge := map[];
    var todo := a.retval.Keys;
    while todo != {}
      invariant todo <= a.retval.Keys
      invariant merge.Keys == a.retval.Keys - todo
      invariant forall k :: k in merge ==> merge[k] == a.retval[k]
      decreases todo
    {
      var key :| key in todo;
      merge := merge[key := a.retval[key]];
      todo := todo - {key};
    }
    todo := b.retval.Keys;
    while todo != {}
      invariant todo <= b.retval.Keys
      invariant merge.Keys == a.retval.Keys + (b.retval.Keys - todo)
      invariant forall k :: k in a.retval ==> merge[k] == a.retval[k]
      invariant forall k :: k in b.retval && k !in todo && k !in a.retval ==> merge[k] == b.retval[k]
      decreases todo
    {
      var key :| key in todo;
      if key !in merge {
        merge := merge[key := b.retval[key]];
      }
      todo := todo - {key};
    }
  }

  /** A merged output is always one of the two operands' outputs, never a concatenation. */
  lemma MergeNeverConcatenates<V>(a: ExecutionResult<V>, b: ExecutionResult<V>)
    ensures Merge(a, b).stdout == a.stdout || Merge(a, b).stdout == b.stdout
    ensures Merge(a, b).stderr == a.stderr || Merge(a, b).stderr == b.stderr
  {
  }

  /** Merging a result with itself gives it back. */
  lemma MergeIdempotent<V>(r: ExecutionResult<V>)
    ensures Merge(r, r) == r
  {
  }

  /** `merge` is associative. */
  lemma MergeAssociative<V>(a: ExecutionResult<V>, b: ExecutionResult<V>, c: ExecutionResult<V>)
    ensures Merge(Merge(a, b), c) == Merge(a, Merge(b, c))
  {
    UnionRightWinsAssociative(c.retval, b.retval, a.retval);
  }

  /** The empty result is a right identity of `merge`; on the left it only contributes its identifier. */
  lemma EmptyIsNeutral<V>(r: ExecutionResult<V>, newId: string)
    ensures Merge(r, Empty(newId)) == r
    ensures Merge(Empty(newId), r) == r.(uuid := newId)
  {
  }

  /** `Display`: exactly stdout for code 0, exactly stderr otherwise. */
  function Display<V>(r: ExecutionResult<V>): (s: string)
    ensures s == r.stdout || s == r.stderr
  {
    match r.retcode
    case 0 => r.stdout
    case _ => r.stderr
  }

  /** Because the default classification flags code 0, `Display` shows stdout exactly for what it calls an error. */
  lemma DisplayFollowsClassification<V>(r: ExecutionResult<V>)
    ensures Display(r) == if IsError(r) then r.stdout else r.stderr
  {
  }

  /** `From<cdumay_errors::Error>`: the code, empty stdout, the message as stderr, the extra data. */
  function FromError<V>(e: LegacyError<V>, newId: string): (r: ExecutionResult<V>)
    ensures r.uuid == newId && r.retcode == e.code
    ensures r.stdout == "" && r.stderr == e.message && r.retval == e.extra
  {
    ExecutionResult(newId, e.code, "", e.message, e.extra)
  }

  /** A converted error renders as its message unless its code is 0, in which case it renders empty. */
  lemma FromErrorDisplay<V>(e: LegacyError<V>, newId: string)
    ensures e.code != 0 ==> Display(FromError(e, newId)) == e.message
    ensures e.code == 0 ==> Display(FromError(e, newId)) == "" && IsError(FromError(e, newId))
  {
  }
}
