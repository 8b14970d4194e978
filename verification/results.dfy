/**
 The current result record (`src/result.rs`): five fields, the error
 classification and the one-line `Display` rendering. Combination and the
 conversion from an error are written in terms of the builder in the source,
 so they live in `ResultOps`, after `Builder`.
 */
module Results {
  import opened Common
  import Text

  /** `Result`: identifier, status code, the two optional output channels and the return data. */
  datatype Result<V> = Result(uuid: Uuid, retcode: u16, stdout: Option<string>, stderr: Option<string>, retval: map<string, V>)

  /**
   `is_error`: HTTP-style codes from 300 up and the Unix generic failure 1;
   the success codes are exactly 0 and 2 to 299.
   */
  function IsError<V>(r: Result<V>): (b: bool)
    ensures !b <==> r.retcode == 0 || 2 <= r.retcode <= 299
  {
    r.retcode >= 300 || r.retcode == 1
  }

  /**
   `Display`: the code and, depending on the classification, stderr or stdout
   in `{:?}` form. The line reveals the classification, the code and the shown
   channel exactly, and nothing of the other channel.
   */
  function Display<V>(r: Result<V>): (s: string)
    ensures Text.ParseDisplay(s) == Some(Text.Shown(IsError(r), r.retcode, ShownChannel(r)))
  {
    Text.Line(IsError(r), r.retcode, ShownChannel(r))
  }

  /** The output channel `Display` shows: stderr for an error, stdout otherwise. */
  function ShownChannel<V>(r: Result<V>): Option<string> {
    if IsError(r) then r.stderr else r.stdout
  }

  /** Two results render alike exactly when they agree on code and shown channel. */
  lemma DisplayDeterminedByShown<V>(r1: Result<V>, r2: Result<V>)
    ensures Display(r1) == Display(r2) <==> r1.retcode == r2.retcode && ShownChannel(r1) == ShownChannel(r2)
  {
    var s1, s2 := Display(r1), Display(r2);
    if s1 == s2 {
      assert Text.ParseDisplay(s1) == Text.ParseDisplay(s2);
    }
  }

  /** With plain text in the shown channel, the rendering quotes it as it is. */
  lemma DisplayPlainText<V>(r: Result<V>, text: string)
    requires ShownChannel(r) == Some(text)
    requires forall i :: 0 <= i < |text| ==> Text.PlainChar(text[i])
    ensures IsError(r) ==> Display(r) == "Result: Err(" + Text.Decimal(r.retcode) + ", stderr: Some(\"" + text + "\"))"
    ensures !IsError(r) ==> Display(r) == "Result: Ok(" + Text.Decimal(r.retcode) + ", stdout: Some(\"" + text + "\"))"
  {
    Text.LinePlain(IsError(r), r.retcode, text);
  }

  /** tests/test_result.rs: an error with code 1 shows its stderr (the test's text is plain). */
  lemma DisplayErrExample<V>(r: Result<V>, text: string)
    requires r.retcode == 1 && r.stderr == Some(text)
    requires forall i :: 0 <= i < |text| ==> Text.PlainChar(text[i])
    ensures Display(r) == "Result: Err(1, stderr: Some(\"" + text + "\"))"
  {
    Text.LinePlainCodeOne(text);
  }

  /** A success with code 0 and plain stdout shows that stdout quoted. */
  lemma DisplayOkPlain<V>(r: Result<V>, text: string)
    requires r.retcode == 0 && r.stdout == Some(text)
    requires forall i :: 0 <= i < |text| ==> Text.PlainChar(text[i])
    ensures Display(r) == "Result: Ok(0, stdout: Some(\"" + text + "\"))"
  {
    Text.LinePlainCodeZero(text);
  }

  /** The text of the tests' success case is plain, and its quoted line reads as the test expects. */
  lemma OkTextPlain()
    ensures forall i :: 0 <= i < |"Ok !"| ==> Text.PlainChar("Ok !"[i])
    ensures "Result: Ok(0, stdout: Some(\"" + "Ok !" + "\"))" == "Result: Ok(0, stdout: Some(\"Ok !\"))"
  {
  }

  /** tests/test_result.rs: a success with code 0 shows its stdout. */
  lemma DisplayOkExample<V>(r: Result<V>)
    requires r.retcode == 0 && r.stdout == Some("Ok !")
    ensures Display(r) == "Result: Ok(0, stdout: Some(\"Ok !\"))"
  {
    OkTextPlain();
    DisplayOkPlain(r, "Ok !");
  }
}
