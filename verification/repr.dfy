/**
 `ResultRepr` of `src/repr.rs`: the same five fields as the current record,
 but its combination starts from a freshly defaulted record, so the result
 carries a new identifier, and two absent output channels stay absent.
 */
module Repr {
  import opened Common
  import Text

  datatype ResultRepr<V> = ResultRepr(uuid: Uuid, retcode: u16, stdout: Option<string>, stderr: Option<string>, retval: map<string, V>)

  /** `Default`: code 0, no output, no return data; `newId` stands for the random `Uuid::new_v4()`. */
  function Default<V>(newId: Uuid): (r: ResultRepr<V>)
    ensures r.uuid == newId && r.retcode == 0
    ensures r.stdout == None && r.stderr == None && r.retval == map[]
  {
    ResultRepr(newId, 0, None, None, map[])
  }

  /** `is_error`: codes from 300 up and the Unix generic failure 1; the success codes are exactly 0 and 2 to 299. */
  function IsError<V>(r: ResultRepr<V>): (b: bool)
    ensures !b <==> r.retcode == 0 || 2 <= r.retcode <= 299
  {
    r.retcode >= 300 || r.retcode == 1
  }

  /** One combined output channel: absent only if both are, newline-joined (left first) if both are present. */
  function JoinOutput(x: Option<string>, y: Option<string>): (r: Option<string>)
    ensures r.None? <==> x.None? && y.None?
    ensures x.Some? && y.Some? ==> r == Some(x.value + "\n" + y.value)
    ensures x.None? ==> r == y
    ensures y.None? ==> r == x
  {
    match (x, y)
    case (None, None) => None
    case (Some(d), None) => Some(d)
    case (None, Some(d)) => Some(d)
    case (Some(d1), Some(d2)) => Some(d1 + "\n" + d2)
  }

  /** Joining output channels is associative, so a fold needs no brackets. */
  lemma JoinOutputAssociative(x: Option<string>, y: Option<string>, z: Option<string>)
    ensures JoinOutput(JoinOutput(x, y), z) == JoinOutput(x, JoinOutput(y, z))
  {
    if x.Some? && y.Some? && z.Some? {
      assert (x.value + "\n" + y.value) + "\n" + z.value == x.value + "\n" + (y.value + "\n" + z.value);
    }
  }

  /**
   `&a + &b`. The result starts as `ResultRepr::default()`, whose random
   identifier is `newId` and is kept; the operands' identifiers are dropped.
   */
  function Add<V>(a: ResultRepr<V>, b: ResultRepr<V>, newId: Uuid): (r: ResultRepr<V>)
    ensures r.uuid == newId
    ensures a.retcode <= r.retcode && b.retcode <= r.retcode
    ensures r.retcode == a.retcode || r.retcode == b.retcode
    ensures r.stdout == JoinOutput(a.stdout, b.stdout) && r.stderr == JoinOutput(a.stderr, b.stderr)
    ensures r.retval.Keys == a.retval.Keys + b.retval.Keys
    ensures forall k :: k in b.retval ==> r.retval[k] == b.retval[k]
    ensures forall k :: k in a.retval && k !in b.retval ==> r.retval[k] == a.retval[k]
  {
    var res := Default(newId);
    var res := res.(stdout := JoinOutput(a.stdout, b.stdout));
    var res := res.(stderr := JoinOutput(a.stderr, b.stderr));
    var res := res.(retval := UnionRightWins(UnionRightWins(res.retval, a.retval), b.retval));
    res.(retcode := Max(a.retcode, b.retcode))
  }

  /** One insertion pass of `add` over an operand's return data, visiting the keys in any order. */
  method InsertAll<V>(acc: map<string, V>, m: map<string, V>) returns (r: map<string, V>)
    ensures r.Keys == acc.Keys + m.Keys
    ensures forall k :: k in m ==> r[k] == m[k]
    ensures forall k :: k in acc && k !in m ==> r[k] == acc[k]
  {
    r := acc;
    var todo := m.Keys;
    while todo != {}
      invariant todo <= m.Keys
      invariant r.Keys == acc.Keys + (m.Keys - todo)
      invariant forall k :: k in m && k !in todo ==> r[k] == m[k]
      invariant forall k :: k in acc && (k !in m || k in todo) ==> r[k] == acc[k]
      decreases todo
    {
      var k :| k in todo;
      r := r[k := m[k]];
      todo := todo - {k};
    }
  }

  /** The two insertion passes of `add`, left operand first: the right operand's values win. */
  method AddRetval<V>(a: ResultRepr<V>, b: ResultRepr<V>) returns (r: map<string, V>)
    ensures r.Keys == a.retval.Keys + b.retval.Keys
    ensures forall k :: k in b.retval ==> r[k] == b.retval[k]
    ensures forall k :: k in a.retval && k !in b.retval ==> r[k] == a.retval[k]
  {
    r := map[];
    r := InsertAll(r, a.retval);
    r := InsertAll(r, b.retval);
  }

  /** The insertion passes compute the map `Add` carries. */
  lemma AddRetvalAgrees<V>(a: ResultRepr<V>, b: ResultRepr<V>, r: map<string, V>, newId: Uuid)
    requires r.Keys == a.retval.Keys + b.retval.Keys
    requires forall k :: k in b.retval ==> r[k] == b.retval[k]
    requires forall k :: k in a.retval && k !in b.retval ==> r[k] == a.retval[k]
    ensures r == Add(a, b, newId).retval
  {
  }

  /** The result of `add` does not depend on the operands' identifiers. */
  lemma AddIgnoresOperandIds<V>(a: ResultRepr<V>, b: ResultRepr<V>, u1: Uuid, u2: Uuid, newId: Uuid)
    ensures Add(a.(uuid := u1), b.(uuid := u2), newId) == Add(a, b, newId)
  {
  }

  /** A defaulted record is a neutral element on either side, up to the new identifier. */
  lemma DefaultIsNeutral<V>(r: ResultRepr<V>, id1: Uuid, newId: Uuid)
    ensures Add(Default(id1), r, newId) == r.(uuid := newId)
    ensures Add(r, Default(id1), newId) == r.(uuid := newId)
  {
  }

  /** A combination field by field: the new identifier, the larger code, both channels joined, the right operand's data winning. */
  lemma AddFields<V>(a: ResultRepr<V>, b: ResultRepr<V>, newId: Uuid)
    ensures Add(a, b, newId) == ResultRepr(newId, Max(a.retcode, b.retcode), JoinOutput(a.stdout, b.stdout), JoinOutput(a.stderr, b.stderr), UnionRightWins(a.retval, b.retval))
  {
    assert UnionRightWins(map[], a.retval) == a.retval;
  }

  /** Combination is associative up to the new identifier. */
  lemma AddAssociative<V>(a: ResultRepr<V>, b: ResultRepr<V>, c: ResultRepr<V>, id1: Uuid, id2: Uuid)
    ensures Add(Add(a, b, id1), c, id2) == Add(a, Add(b, c, id1), id2)
  {
    AddFields(a, b, id1);
    AddFields(b, c, id1);
    AddFields(Add(a, b, id1), c, id2);
    AddFields(a, Add(b, c, id1), id2);
    JoinOutputAssociative(a.stdout, b.stdout, c.stdout);
    JoinOutputAssociative(a.stderr, b.stderr, c.stderr);
    UnionRightWinsAssociative(a.retval, b.retval, c.retval);
    MaxAssociative(a.retcode, b.retcode, c.retcode);
  }

  /** When a combination is an error: 300 and up on either side, or a 1 meeting a 0 or a 1. */
  lemma AddErrorIff<V>(a: ResultRepr<V>, b: ResultRepr<V>, newId: Uuid)
    ensures IsError(Add(a, b, newId)) <==>
              || a.retcode >= 300 || b.retcode >= 300
              || (a.retcode <= 1 && b.retcode <= 1 && (a.retcode == 1 || b.retcode == 1))
  {
  }

  /** The tests of src/repr.rs: combining defaults, two "Ok!" outputs, two "Error!" outputs, and codes 1 and 0. */
  lemma AddExamples<V>(id1: Uuid, id2: Uuid, newId: Uuid, r1: ResultRepr<V>, r2: ResultRepr<V>)
    requires r1.retcode == 1 && r2.retcode == 0
    ensures var d := Add(Default<V>(id1), Default<V>(id2), newId); !IsError(d) && d.stdout == None
    ensures Add(Default<V>(id1).(stdout := Some("Ok!")), Default<V>(id2).(stdout := Some("Ok!")), newId).stdout == Some("Ok!\nOk!")
    ensures Add(Default<V>(id1).(stderr := Some("Error!")), Default<V>(id2).(stderr := Some("Error!")), newId).stderr == Some("Error!\nError!")
    ensures IsError(Add(r1, r2, newId)) && IsError(Add(r2, r1, newId))
  {
    assert "Ok!" + "\n" + "Ok!" == "Ok!\nOk!";
    assert "Error!" + "\n" + "Error!" == "Error!\nError!";
  }

  /** The stdout of each sub-result, in order. */
  function Stdouts<V>(rs: seq<ResultRepr<V>>): (os: seq<Option<string>>)
    ensures |os| == |rs|
    ensures forall i :: 0 <= i < |rs| ==> os[i] == rs[i].stdout
  {
    if rs == [] then [] else [rs[0].stdout] + Stdouts(rs[1..])
  }

  /** The texts of the present channels, in order. */
  function Present(os: seq<Option<string>>): seq<string> {
    if os == [] then [] else (if os[0].Some? then [os[0].value] else []) + Present(os[1..])
  }

  /** Texts joined with a newline between consecutive ones. */
  function JoinLines(ss: seq<string>): string
    requires ss != []
  {
    if |ss| == 1 then ss[0] else ss[0] + "\n" + JoinLines(ss[1..])
  }

  /** All present outputs, newline-joined in order, or absent when none is present. */
  function Lines(os: seq<Option<string>>): Option<string> {
    var ps := Present(os);
    if ps == [] then None else Some(JoinLines(ps))
  }

  lemma LinesCons(o: Option<string>, os: seq<Option<string>>)
    ensures Lines([o] + os) == JoinOutput(o, Lines(os))
  {
    assert ([o] + os)[1..] == os;
    var ps := Present(os);
    assert Present([o] + os) == (if o.Some? then [o.value] else []) + ps;
    if o.Some? {
      var qs := [o.value] + ps;
      assert Present([o] + os) == qs;
      if ps == [] {
        assert qs == [o.value];
        assert JoinLines(qs) == o.value;
      } else {
        assert qs[1..] == ps;
        assert JoinLines(qs) == o.value + "\n" + JoinLines(ps);
      }
    } else {
      assert Present([o] + os) == ps;
    }
  }

  /** Folding an ordered sequence of sub-results into `acc`, left to right. */
  function Sum<V>(acc: ResultRepr<V>, rs: seq<ResultRepr<V>>, newId: Uuid): ResultRepr<V>
    decreases |rs|
  {
    if rs == [] then acc else Sum(Add(acc, rs[0], newId), rs[1..], newId)
  }

  lemma {:induction false} SumStdoutJoin<V>(acc: ResultRepr<V>, rs: seq<ResultRepr<V>>, newId: Uuid)
    ensures Sum(acc, rs, newId).stdout == JoinOutput(acc.stdout, Lines(Stdouts(rs)))
    decreases |rs|
  {
    if rs != [] {
      var next := Add(acc, rs[0], newId);
      SumStdoutJoin(next, rs[1..], newId);
      JoinOutputAssociative(acc.stdout, rs[0].stdout, Lines(Stdouts(rs[1..])));
      assert Stdouts(rs) == [rs[0].stdout] + Stdouts(rs[1..]);
      LinesCons(rs[0].stdout, Stdouts(rs[1..]));
    }
  }

  /**
   The folded stdout holds every present stdout, newline-joined in order,
   and stays absent when no step wrote any.
   */
  lemma SumStdout<V>(acc: ResultRepr<V>, rs: seq<ResultRepr<V>>, newId: Uuid)
    ensures Sum(acc, rs, newId).stdout == Lines([acc.stdout] + Stdouts(rs))
  {
    SumStdoutJoin(acc, rs, newId);
    LinesCons(acc.stdout, Stdouts(rs));
  }

  /** The output channel `Display` shows: stderr for an error, stdout otherwise. */
  function ShownChannel<V>(r: ResultRepr<V>): Option<string> {
    if IsError(r) then r.stderr else r.stdout
  }

  /**
   `Display`: the same two shapes as the current record. The line reveals the
   classification, the code and exactly one channel.
   */
  function Display<V>(r: ResultRepr<V>): (s: string)
    ensures Text.ParseDisplay(s) == Some(Text.Shown(IsError(r), r.retcode, ShownChannel(r)))
  {
    Text.Line(IsError(r), r.retcode, ShownChannel(r))
  }

  /** `From<ErrorRepr>`: the code, the message as stderr, no stdout, and the extra data when there is some. */
  function FromError<V>(e: ErrorRecord<V>, newId: Uuid): (r: ResultRepr<V>)
    ensures r.uuid == newId && r.retcode == e.code
    ensures r.stdout == None && r.stderr == Some(e.message)
    ensures e.details.Some? ==> r.retval == e.details.value
    ensures e.details.None? ==> r.retval == map[]
  {
    var result := Default(newId);
    var result := result.(retcode := e.code, stderr := Some(e.message));
    match e.details
    case Some(data) => result.(retval := data)
    case None => result
  }

  /** A converted error is an error exactly when its code says so. */
  lemma FromErrorClassification<V>(e: ErrorRecord<V>, newId: Uuid)
    ensures IsError(FromError(e, newId)) <==> e.code >= 300 || e.code == 1
  {
  }
}
