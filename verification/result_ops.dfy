/**
 Combination (`Add for &Result`) and the conversion from an error
 (`From<Error> for Result`) of `src/result.rs`. Both go through the builder,
 which is why the joined output channels always come out present: two absent
 channels join to `Some("")`, not `None`.
 */
module ResultOps {
  import opened Common
  import opened Results
  import opened Builder

  /**
   The text one output channel of a combination holds: both present are
   newline-joined (left first), one present is taken verbatim, none gives "".
   */
  function JoinOutput(x: Option<string>, y: Option<string>): (s: string)
    ensures x.Some? && y.Some? ==> s == x.value + "\n" + y.value
    ensures x.Some? && y.None? ==> s == x.value
    ensures x.None? && y.Some? ==> s == y.value
    ensures x.None? && y.None? ==> s == ""
  {
    match (x, y)
    case (None, None) => ""
    case (Some(d), None) => d
    case (None, Some(d)) => d
    case (Some(d1), Some(d2)) => d1 + "\n" + d2
  }

  /**
   `&a + &b`. `newId` is the random identifier `ResultBuilder::default()`
   draws; it is overwritten by `b`'s identifier straight away.
   */
  function Add<V>(a: Result<V>, b: Result<V>, newId: Uuid): (r: Result<V>)
    ensures r.uuid == b.uuid
    ensures a.retcode <= r.retcode && b.retcode <= r.retcode
    ensures r.retcode == a.retcode || r.retcode == b.retcode
    ensures r.stdout.Some? && r.stderr.Some?
    ensures r.retval.Keys == a.retval.Keys + b.retval.Keys
    ensures forall k :: k in b.retval ==> r.retval[k] == b.retval[k]
    ensures forall k :: k in a.retval && k !in b.retval ==> r.retval[k] == a.retval[k]
  {
    Build(
      WithRetval(
        WithStderr(
          WithStdout(
            WithRetcode(
              WithUuid(Default(newId), b.uuid),
              Max(a.retcode, b.retcode)),
            JoinOutput(a.stdout, b.stdout)),
          JoinOutput(a.stderr, b.stderr)),
        UnionRightWins(a.retval, b.retval)))
  }

  /** The random identifier drawn inside `add` never shows in its result. */
  lemma AddIgnoresNewId<V>(a: Result<V>, b: Result<V>, id1: Uuid, id2: Uuid)
    ensures Add(a, b, id1) == Add(a, b, id2)
  {
  }

  /**
   Each output channel of a combination: `x + "\n" + y` when both are present,
   the present one verbatim, and `Some("")` (never `None`) when both are absent;
   stdout and stderr are combined independently of each other.
   */
  lemma AddOutputChannels<V>(a: Result<V>, b: Result<V>, newId: Uuid)
    ensures var r := Add(a, b, newId);
            && (a.stdout.Some? && b.stdout.Some? ==> r.stdout == Some(a.stdout.value + "\n" + b.stdout.value))
            && (a.stdout.Some? != b.stdout.Some? ==> r.stdout == if a.stdout.Some? then a.stdout else b.stdout)
            && (a.stdout.None? && b.stdout.None? ==> r.stdout == Some(""))
            && (a.stderr.Some? && b.stderr.Some? ==> r.stderr == Some(a.stderr.value + "\n" + b.stderr.value))
            && (a.stderr.Some? != b.stderr.Some? ==> r.stderr == if a.stderr.Some? then a.stderr else b.stderr)
            && (a.stderr.None? && b.stderr.None? ==> r.stderr == Some(""))
  {
  }

  /**
   When a combination is an error: a code from 300 up on either side always
   is; otherwise only a 1 meeting a 0 or another 1 is, since the larger code
   wins and any code from 2 to 299 hides a 1.
   */
  lemma AddErrorIff<V>(a: Result<V>, b: Result<V>, newId: Uuid)
    ensures IsError(Add(a, b, newId)) <==>
              || a.retcode >= 300 || b.retcode >= 300
              || (a.retcode <= 1 && b.retcode <= 1 && (a.retcode == 1 || b.retcode == 1))
  {
  }

  /** Combination does not preserve being an error: a 1 combined with a code from 2 to 299 is a success. */
  lemma AddCanClearError<V>(a: Result<V>, b: Result<V>, newId: Uuid)
    requires a.retcode == 1 && 2 <= b.retcode < 300
    ensures IsError(a) && !IsError(Add(a, b, newId)) && !IsError(Add(b, a, newId))
  {
    AddErrorIff(a, b, newId);
    AddErrorIff(b, a, newId);
  }

  /** Combination is not associative: two absent channels become `Some("")`, which then joins with a newline. */
  lemma AddNotAssociative<V>(u: Uuid, m: map<string, V>, x: string)
    ensures var none := Result(u, 0, None, None, m);
            var some := Result(u, 0, Some(x), None, m);
            && Add(Add(none, none, u), some, u).stdout == Some("\n" + x)
            && Add(none, Add(none, some, u), u).stdout == Some(x)
  {
    assert "" + "\n" + x == "\n" + x;
  }

  /**
   Combination is not idempotent: a present stdout is duplicated, and an
   absent one becomes `Some("")`, so no result combines with itself unchanged.
   */
  lemma AddNotIdempotent<V>(r: Result<V>, newId: Uuid)
    ensures r.stdout.Some? ==> Add(r, r, newId).stdout == Some(r.stdout.value + "\n" + r.stdout.value)
    ensures Add(r, r, newId) != r
  {
    if r.stdout.Some? {
      assert |Add(r, r, newId).stdout.value| > |r.stdout.value|;
    }
  }

  /** Combination is not commutative: the identifier comes from the right operand. */
  lemma AddNotCommutative<V>(a: Result<V>, b: Result<V>, newId: Uuid)
    requires a.uuid != b.uuid
    ensures Add(a, b, newId) != Add(b, a, newId)
  {
  }

  /** tests/test_result.rs, `test_add_stdout`: two "Ok!" outputs and no stderr. */
  lemma AddStdoutExample<V>(r1: Result<V>, r2: Result<V>, newId: Uuid)
    requires r1.retcode == 0 && r2.retcode == 0
    requires r1.stdout == Some("Ok!") && r2.stdout == Some("Ok!") && r1.stderr == None && r2.stderr == None
    ensures var r3 := Add(r1, r2, newId);
            !IsError(r3) && r3.stdout == Some("Ok!\nOk!") && r3.stderr == Some("")
  {
    assert "Ok!" + "\n" + "Ok!" == "Ok!\nOk!";
  }

  /** tests/test_result.rs, `test_add_err_ok`: a code-1 error and a code-0 success combine to an error in both orders. */
  lemma AddErrOkExample<V>(r1: Result<V>, r2: Result<V>, newId: Uuid)
    requires r1.retcode == 1 && r2.retcode == 0
    ensures IsError(Add(r1, r2, newId)) && IsError(Add(r2, r1, newId))
  {
  }

  /**
   Folding an ordered sequence of sub-results into `acc`, left to right, the
   way callers combine the outcomes of successive steps.
   */
  function Sum<V>(acc: Result<V>, rs: seq<Result<V>>, newId: Uuid): Result<V>
    decreases |rs|
  {
    if rs == [] then acc else Sum(Add(acc, rs[0], newId), rs[1..], newId)
  }

  /** The folded code is the worst code of all: no smaller than any, and equal to one of them. */
  lemma {:induction false} SumRetcode<V>(acc: Result<V>, rs: seq<Result<V>>, newId: Uuid)
    ensures acc.retcode <= Sum(acc, rs, newId).retcode
    ensures forall i :: 0 <= i < |rs| ==> rs[i].retcode <= Sum(acc, rs, newId).retcode
    ensures Sum(acc, rs, newId).retcode == acc.retcode
         || exists i :: 0 <= i < |rs| && Sum(acc, rs, newId).retcode == rs[i].retcode
    decreases |rs|
  {
    if rs != [] {
      var next := Add(acc, rs[0], newId);
      SumRetcode(next, rs[1..], newId);
      var s := Sum(next, rs[1..], newId);
      assert s == Sum(acc, rs, newId);
      forall i | 0 <= i < |rs|
        ensures rs[i].retcode <= s.retcode
      {
        if i > 0 {
          assert rs[i] == rs[1..][i - 1];
        }
      }
      if s.retcode != next.retcode {
        var j :| 0 <= j < |rs[1..]| && s.retcode == rs[1..][j].retcode;
        assert rs[j + 1] == rs[1..][j];
      } else if next.retcode != acc.retcode {
        assert s.retcode == rs[0].retcode;
      }
    }
  }

  /** The folded identifier is that of the last sub-result. */
  lemma {:induction false} SumUuid<V>(acc: Result<V>, rs: seq<Result<V>>, newId: Uuid)
    requires rs != []
    ensures Sum(acc, rs, newId).uuid == rs[|rs| - 1].uuid
    decreases |rs|
  {
    if |rs| > 1 {
      SumUuid(Add(acc, rs[0], newId), rs[1..], newId);
    }
  }

  /** A key is in the folded return data exactly when the accumulator or some sub-result has it. */
  lemma {:induction false} SumKeys<V>(acc: Result<V>, rs: seq<Result<V>>, newId: Uuid, k: string)
    ensures k in Sum(acc, rs, newId).retval <==> k in acc.retval || exists i :: 0 <= i < |rs| && k in rs[i].retval
    decreases |rs|
  {
    if rs != [] {
      SumKeys(Add(acc, rs[0], newId), rs[1..], newId, k);
      if exists i :: 0 <= i < |rs[1..]| && k in rs[1..][i].retval {
        var i :| 0 <= i < |rs[1..]| && k in rs[1..][i].retval;
        assert rs[i + 1] == rs[1..][i];
      }
      if exists i :: 0 <= i < |rs| && k in rs[i].retval {
        var i :| 0 <= i < |rs| && k in rs[i].retval;
        if i > 0 {
          assert rs[1..][i - 1] == rs[i];
        }
      }
    }
  }

  /**
   `From<Error>`: the error's code, its message as stderr, no stdout, and its
   details (or an empty map) as return data; `newId` is the builder's random
   identifier, which the conversion keeps.
   */
  function FromError<V>(e: ErrorRecord<V>, newId: Uuid): (r: Result<V>)
    ensures r.uuid == newId && r.retcode == e.code
    ensures r.stdout == None && r.stderr == Some(e.message)
    ensures e.details.Some? ==> r.retval == e.details.value
    ensures e.details.None? ==> r.retval == map[]
  {
    Build(WithRetval(WithStderr(WithRetcode(Default(newId), e.code), e.message), e.details.GetOr(map[])))
  }

  /** A converted error is classified by its code alone; the conversion itself does not make it an error. */
  lemma FromErrorClassification<V>(e: ErrorRecord<V>, newId: Uuid)
    ensures IsError(FromError(e, newId)) <==> e.code >= 300 || e.code == 1
    ensures Display(FromError(e, newId)) == Display(FromError(e.(details := None), newId))
  {
  }

  /** tests/test_result.rs, `test_error`: code 1, "Unexpected error", details {"context": …}. */
  lemma FromErrorExample<V>(context: V, newId: Uuid)
    ensures var r := FromError(ErrorRecord(1, "Unexpected error", Some(map["context" := context])), newId);
            IsError(r) && r.stderr == Some("Unexpected error") && r.retval == map["context" := context]
  {
  }
}
