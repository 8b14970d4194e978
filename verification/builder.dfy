/**
 The fluent builder of `src/builder.rs`: defaults, one setter per field
 (last write wins), and `build`, which materialises a `Results.Result`.
 */
module Builder {
  import opened Common
  import Results

  datatype ResultBuilder<V> = ResultBuilder(uuid: Uuid, retcode: u16, stdout: Option<string>, stderr: Option<string>, retval: map<string, V>)

  /** `ResultBuilder::default()`; `newId` stands for the random `Uuid::new_v4()`. */
  function Default<V>(newId: Uuid): (b: ResultBuilder<V>)
    ensures b.uuid == newId && b.retcode == 0
    ensures b.stdout == None && b.stderr == None && b.retval == map[]
  {
    ResultBuilder(newId, 0, None, None, map[])
  }

  function WithUuid<V>(b: ResultBuilder<V>, uuid: Uuid): (b': ResultBuilder<V>)
    ensures b'.uuid == uuid
    ensures b'.retcode == b.retcode && b'.stdout == b.stdout && b'.stderr == b.stderr && b'.retval == b.retval
  {
    b.(uuid := uuid)
  }

  function WithRetcode<V>(b: ResultBuilder<V>, retcode: u16): (b': ResultBuilder<V>)
    ensures b'.retcode == retcode
    ensures b'.uuid == b.uuid && b'.stdout == b.stdout && b'.stderr == b.stderr && b'.retval == b.retval
  {
    b.(retcode := retcode)
  }

  /** Stores `Some(stdout)`, so even the empty string yields a present channel. */
  function WithStdout<V>(b: ResultBuilder<V>, stdout: string): (b': ResultBuilder<V>)
    ensures b'.stdout.Some? && b'.stdout.value == stdout
    ensures b'.uuid == b.uuid && b'.retcode == b.retcode && b'.stderr == b.stderr && b'.retval == b.retval
  {
    b.(stdout := Some(stdout))
  }

  /** Stores `Some(stderr)`, so even the empty string yields a present channel. */
  function WithStderr<V>(b: ResultBuilder<V>, stderr: string): (b': ResultBuilder<V>)
    ensures b'.stderr.Some? && b'.stderr.value == stderr
    ensures b'.uuid == b.uuid && b'.retcode == b.retcode && b'.stdout == b.stdout && b'.retval == b.retval
  {
    b.(stderr := Some(stderr))
  }

  function WithRetval<V>(b: ResultBuilder<V>, retval: map<string, V>): (b': ResultBuilder<V>)
    ensures b'.retval == retval
    ensures b'.uuid == b.uuid && b'.retcode == b.retcode && b'.stdout == b.stdout && b'.stderr == b.stderr
  {
    b.(retval := retval)
  }

  /** `build()`: the record carries exactly the five values the builder holds. */
  function Build<V>(b: ResultBuilder<V>): (r: Results.Result<V>)
    ensures r.uuid == b.uuid && r.retcode == b.retcode
    ensures r.stdout == b.stdout && r.stderr == b.stderr && r.retval == b.retval
  {
    Results.Result(b.uuid, b.retcode, b.stdout, b.stderr, b.retval)
  }

  /** One setter call, as data, so that arbitrary call chains can be reasoned about. */
  datatype Setter<V> =
    | SetUuid(uuid: Uuid)
    | SetRetcode(retcode: u16)
    | SetStdout(stdout: string)
    | SetStderr(stderr: string)
    | SetRetval(retval: map<string, V>)

  datatype Field = UuidField | RetcodeField | StdoutField | StderrField | RetvalField

  function Apply<V>(b: ResultBuilder<V>, op: Setter<V>): ResultBuilder<V> {
    match op
    case SetUuid(u) => WithUuid(b, u)
    case SetRetcode(c) => WithRetcode(b, c)
    case SetStdout(s) => WithStdout(b, s)
    case SetStderr(s) => WithStderr(b, s)
    case SetRetval(m) => WithRetval(b, m)
  }

  /** A fluent chain `b.op0().op1()…`, applied left to right. */
  function ApplyAll<V>(b: ResultBuilder<V>, ops: seq<Setter<V>>): ResultBuilder<V>
    decreases |ops|
  {
    if ops == [] then b else ApplyAll(Apply(b, ops[0]), ops[1..])
  }

  /** The field a setter writes. */
  function Target<V>(op: Setter<V>): Field {
    match op
    case SetUuid(_) => UuidField
    case SetRetcode(_) => RetcodeField
    case SetStdout(_) => StdoutField
    case SetStderr(_) => StderrField
    case SetRetval(_) => RetvalField
  }

  ghost predicate AgreeOn<V>(b1: ResultBuilder<V>, b2: ResultBuilder<V>, f: Field) {
    match f
    case UuidField => b1.uuid == b2.uuid
    case RetcodeField => b1.retcode == b2.retcode
    case StdoutField => b1.stdout == b2.stdout
    case StderrField => b1.stderr == b2.stderr
    case RetvalField => b1.retval == b2.retval
  }

  /** A setter leaves every field but its own as it was. */
  lemma SetterFrame<V>(b: ResultBuilder<V>, op: Setter<V>, f: Field)
    requires Target(op) != f
    ensures AgreeOn(Apply(b, op), b, f)
  {
  }

  /** What a setter writes into its own field does not depend on the builder it is applied to. */
  lemma SetterOverwrites<V>(b1: ResultBuilder<V>, b2: ResultBuilder<V>, op: Setter<V>)
    ensures AgreeOn(Apply(b1, op), Apply(b2, op), Target(op))
  {
  }

  /** A field no setter of the chain targets keeps its starting value. */
  lemma {:induction false} UntouchedFieldKept<V>(b: ResultBuilder<V>, ops: seq<Setter<V>>, f: Field)
    requires forall j :: 0 <= j < |ops| ==> Target(ops[j]) != f
    ensures AgreeOn(ApplyAll(b, ops), b, f)
    decreases |ops|
  {
    if ops != [] {
      UntouchedFieldKept(Apply(b, ops[0]), ops[1..], f);
      SetterFrame(b, ops[0], f);
    }
  }

  /**
   Last write wins: in any chain of setters, a field holds what the last
   setter targeting it wrote, whatever came before.
   */
  lemma {:induction false} LastWriteWins<V>(b: ResultBuilder<V>, ops: seq<Setter<V>>, i: nat)
    requires i < |ops|
    requires forall j :: i < j < |ops| ==> Target(ops[j]) != Target(ops[i])
    ensures AgreeOn(ApplyAll(b, ops), Apply(b, ops[i]), Target(ops[i]))
    decreases |ops|
  {
    var f := Target(ops[i]);
    if i == 0 {
      UntouchedFieldKept(Apply(b, ops[0]), ops[1..], f);
    } else {
      LastWriteWins(Apply(b, ops[0]), ops[1..], i - 1);
      SetterOverwrites(Apply(b, ops[0]), b, ops[i]);
    }
  }

  /** The chain of setters that reproduces `r` from any default builder. */
  function SettersFor<V>(r: Results.Result<V>): seq<Setter<V>> {
    [SetUuid(r.uuid), SetRetcode(r.retcode)]
    + (if r.stdout.Some? then [SetStdout(r.stdout.value)] else [])
    + (if r.stderr.Some? then [SetStderr(r.stderr.value)] else [])
    + [SetRetval(r.retval)]
  }

  /** Every record, including those with absent channels, is reachable through the builder. */
  lemma BuildReachesEveryResult<V>(r: Results.Result<V>, newId: Uuid)
    ensures Build(ApplyAll(Default(newId), SettersFor(r))) == r
  {
    var ops := SettersFor(r);
    var b := ApplyAll(Default(newId), ops);
    var n := |ops|;
    LastWriteWins(Default(newId), ops, 0);
    LastWriteWins(Default(newId), ops, 1);
    LastWriteWins(Default(newId), ops, n - 1);
    if r.stdout.Some? {
      LastWriteWins(Default(newId), ops, 2);
    } else {
      UntouchedFieldKept(Default(newId), ops, StdoutField);
    }
    if r.stderr.Some? {
      LastWriteWins(Default(newId), ops, n - 2);
    } else {
      UntouchedFieldKept(Default(newId), ops, StderrField);
    }
  }

  /** tests/test_builder.rs: default, then stdout "Test", then a map holding "Hello". */
  lemma BuilderExample<V>(newId: Uuid, world: V)
    ensures var r := Build(WithRetval(WithStdout(Default(newId), "Test"), map["Hello" := world]));
            r.stdout == Some("Test") && "Hello" in r.retval
  {
  }
}
