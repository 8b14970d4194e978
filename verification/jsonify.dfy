/**
 `JsonResult` of `src/jsonify.rs`: a serialisable copy of the current record,
 with its own error classification and optional channels that are left out
 of the serialised object when absent.
 */
module Jsonify {
  import opened Common
  import Results

  datatype JsonResult<V> = JsonResult(uuid: Uuid, retcode: u16, stdout: Option<string>, stderr: Option<string>, retval: map<string, V>)

  /** `From<Result> for JsonResult`: a field-for-field move. */
  function FromResult<V>(r: Results.Result<V>): (j: JsonResult<V>)
    ensures j.uuid == r.uuid && j.retcode == r.retcode
    ensures j.stdout == r.stdout && j.stderr == r.stderr
    ensures j.retval == r.retval
  {
    JsonResult(r.uuid, r.retcode, r.stdout, r.stderr, r.retval)
  }

  /** The way back, used to show that the conversion loses nothing. */
  function ToResult<V>(j: JsonResult<V>): (r: Results.Result<V>)
    ensures r.uuid == j.uuid && r.retcode == j.retcode
    ensures r.stdout == j.stdout && r.stderr == j.stderr
    ensures r.retval == j.retval
  {
    Results.Result(j.uuid, j.retcode, j.stdout, j.stderr, j.retval)
  }

  /** The conversion is a bijection: each direction undoes the other. */
  lemma ConversionRoundTrip<V>(r: Results.Result<V>, j: JsonResult<V>)
    ensures ToResult(FromResult(r)) == r
    ensures FromResult(ToResult(j)) == j
  {
  }

  /**
   `IsError for JsonResult`: codes from 300 up and the Unix generic failure 1,
   so a copy classifies exactly as the record it was converted from.
   */
  function IsError<V>(j: JsonResult<V>): (b: bool)
    ensures !b <==> j.retcode == 0 || 2 <= j.retcode <= 299
    ensures b == Results.IsError(ToResult(j))
  {
    j.retcode >= 300 || j.retcode == 1
  }

  /** Classification commutes with the conversion. */
  lemma IsErrorCommutes<V>(r: Results.Result<V>)
    ensures IsError(FromResult(r)) <==> Results.IsError(r)
  {
  }

  /**
   The keys of the serialised object, in order: `stdout` and `stderr` are
   skipped when absent, the three others are always written.
   */
  function SerializedKeys<V>(j: JsonResult<V>): (keys: seq<string>)
    ensures |keys| == 3 + (if j.stdout.Some? then 1 else 0) + (if j.stderr.Some? then 1 else 0)
    ensures keys[0] == "uuid" && keys[1] == "retcode" && keys[|keys| - 1] == "retval"
    ensures "stdout" in keys <==> j.stdout.Some?
    ensures "stderr" in keys <==> j.stderr.Some?
  {
    ["uuid", "retcode"]
    + (if j.stdout.Some? then ["stdout"] else [])
    + (if j.stderr.Some? then ["stderr"] else [])
    + ["retval"]
  }
}
