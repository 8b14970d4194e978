/**
 The text the result records render to: Rust's `{}` of an unsigned code
 (base-10 digits) and `{:?}` of an `Option<String>` (`None` or `Some("…")`
 with the text escaped). Each rendering comes with a parser that reads it
 back, and the round-trip lemmas show that nothing is lost in the rendering.
 */
module Text {
  import opened Common

  predicate IsDigit(c: char) {
    '0' <= c <= '9'
  }

  predicate IsHexDigit(c: char) {
    '0' <= c <= '9' || 'a' <= c <= 'f'
  }

  predicate AllDigits(s: string) {
    forall i :: 0 <= i < |s| ==> IsDigit(s[i])
  }

  function DigitChar(d: nat): (c: char)
    requires d < 10
    ensures IsDigit(c) && c as int - '0' as int == d
  {
    ('0' as int + d) as char
  }

  /** Lower-case hexadecimal digit, as Rust writes it inside `\u{…}`. */
  function HexDigit(d: nat): (c: char)
    requires d < 16
    ensures IsHexDigit(c) && HexValue(c) == d
  {
    if d < 10 then DigitChar(d) else ('a' as int + d - 10) as char
  }

  function HexValue(c: char): (v: nat)
    requires IsHexDigit(c)
    ensures v < 16
  {
    if c <= '9' then c as int - '0' as int else c as int - 'a' as int + 10
  }

  /** Hexadecimal without leading zeros of a value below 0x100. */
  function Hex(v: nat): (s: string)
    requires v < 0x100
    ensures |s| == 1 || |s| == 2
    ensures forall i :: 0 <= i < |s| ==> IsHexDigit(s[i])
    ensures |s| == 1 ==> HexValue(s[0]) == v
    ensures |s| == 2 ==> 16 * HexValue(s[0]) + HexValue(s[1]) == v
  {
    if v < 16 then [HexDigit(v)] else [HexDigit(v / 16), HexDigit(v % 16)]
  }

  /** `{}` of an unsigned integer: base-10 digits, no sign, no leading zero. */
  function Decimal(n: nat): (s: string)
    ensures |s| >= 1 && AllDigits(s)
    ensures s[0] == '0' <==> n == 0
    decreases n
  {
    if n < 10 then [DigitChar(n)] else Decimal(n / 10) + [DigitChar(n % 10)]
  }

  /** The number a string of base-10 digits denotes. */
  function DigitsValue(s: string): nat
    requires AllDigits(s)
  {
    if s == [] then 0 else DigitsValue(s[..|s| - 1]) * 10 + (s[|s| - 1] as int - '0' as int)
  }

  /** Reading the digits of `Decimal(n)` gives `n` back. */
  lemma {:induction false} DecimalRoundTrip(n: nat)
    ensures DigitsValue(Decimal(n)) == n
    decreases n
  {
    if n >= 10 {
      var s := Decimal(n);
      assert s[..|s| - 1] == Decimal(n / 10);
      DecimalRoundTrip(n / 10);
    }
  }

  /** Different codes never render to the same digits. */
  lemma DecimalInjective(m: nat, n: nat)
    requires Decimal(m) == Decimal(n)
    ensures m == n
  {
    DecimalRoundTrip(m);
    DecimalRoundTrip(n);
  }

  /**
   One character as `{:?}` writes it inside a string literal: the six named
   escapes, `\u{…}` for the other ASCII control characters, and the character
   itself otherwise (a single quote is not escaped inside a string).
   */
  function EscapeChar(c: char): (e: string)
    ensures |e| >= 1
  {
    if c == '\0' then "\\0"
    else if c == '\t' then "\\t"
    else if c == '\r' then "\\r"
    else if c == '\n' then "\\n"
    else if c == '\\' then "\\\\"
    else if c == '"' then "\\\""
    else if c as int < 0x20 || c as int == 0x7f then "\\u{" + Hex(c as int) + "}"
    else [c]
  }

  /**
   The body of `{:?}` of a string, between its two double quotes. Escaping
   loses nothing (`Unescape` reads every string back from it), and a string of
   plain characters is its own escaped form.
   */
  function EscapeDebug(s: string): (e: string)
    ensures |e| >= |s|
    ensures Unescape(e) == Some(s)
    ensures (forall i :: 0 <= i < |s| ==> PlainChar(s[i])) ==> e == s
  {
    if s == [] then []
    else
      var rest := EscapeDebug(s[1..]);
      UnescapeAfterEscapeChar(s[0], rest);
      assert [s[0]] + s[1..] == s;
      EscapeChar(s[0]) + rest
  }

  function Prepend(c: char, o: Option<string>): Option<string> {
    match o
    case None => None
    case Some(s) => Some([c] + s)
  }

  /** Reads an escaped string body back; `None` on an unknown escape or a bare double quote. */
  function Unescape(t: string): Option<string>
    decreases |t|
  {
    if t == [] then Some([])
    else if t[0] == '"' then None
    else if t[0] != '\\' then Prepend(t[0], Unescape(t[1..]))
    else if |t| < 2 then None
    else if t[1] == '0' then Prepend('\0', Unescape(t[2..]))
    else if t[1] == 't' then Prepend('\t', Unescape(t[2..]))
    else if t[1] == 'r' then Prepend('\r', Unescape(t[2..]))
    else if t[1] == 'n' then Prepend('\n', Unescape(t[2..]))
    else if t[1] == '\\' then Prepend('\\', Unescape(t[2..]))
    else if t[1] == '"' then Prepend('"', Unescape(t[2..]))
    else if |t| >= 5 && t[1] == 'u' && t[2] == '{' && IsHexDigit(t[3]) && t[4] == '}' then
      Prepend(HexValue(t[3]) as char, Unescape(t[5..]))
    else if |t| >= 6 && t[1] == 'u' && t[2] == '{' && IsHexDigit(t[3]) && IsHexDigit(t[4]) && t[5] == '}' then
      Prepend((16 * HexValue(t[3]) + HexValue(t[4])) as char, Unescape(t[6..]))
    else None
  }

  lemma UnescapeAfterEscapeChar(c: char, rest: string)
    ensures Unescape(EscapeChar(c) + rest) == Prepend(c, Unescape(rest))
  {
    var t := EscapeChar(c) + rest;
    if c == '\0' || c == '\t' || c == '\r' || c == '\n' || c == '\\' || c == '"' {
      assert t[2..] == rest;
    } else if c as int < 0x20 || c as int == 0x7f {
      var h := Hex(c as int);
      if |h| == 1 {
        assert t[..5] == "\\u{" + h + "}";
        assert t[5..] == rest;
      } else {
        assert t[..6] == "\\u{" + h + "}";
        assert t[6..] == rest;
      }
    } else {
      assert t[1..] == rest;
    }
  }

  /** Printable ASCII other than the double quote and the backslash. */
  predicate PlainChar(c: char) {
    0x20 <= c as int < 0x7f && c != '"' && c != '\\'
  }

  /** A present plain string is rendered between `Some("` and `")` as it is. */
  lemma DebugOptionPlain(s: string)
    requires forall i :: 0 <= i < |s| ==> PlainChar(s[i])
    ensures DebugOption(Some(s)) == "Some(\"" + s + "\")"
  {
  }

  /** `{:?}` of an `Option<String>`: `None`, or the escaped text in `Some("…")`; it is always read back exactly. */
  function DebugOption(o: Option<string>): (t: string)
    ensures o.None? ==> t == "None"
    ensures o.Some? ==> |t| == 8 + |EscapeDebug(o.value)|
    ensures ParseDebugOption(t) == Some(o)
  {
    match o
    case None => "None"
    case Some(s) =>
      var e := EscapeDebug(s);
      var t := "Some(\"" + e + "\")";
      assert t[..6] == "Some(\"";
      assert t[|t| - 2..] == "\")";
      assert t[6..|t| - 2] == e;
      t
  }

  /** Reads `{:?}` of an `Option<String>` back. */
  function ParseDebugOption(t: string): Option<Option<string>> {
    if t == "None" then Some(None)
    else if |t| >= 8 && t[..6] == "Some(\"" && t[|t| - 2..] == "\")" then
      match Unescape(t[6..|t| - 2])
      case Some(s) => Some(Some(s))
      case None => None
    else None
  }

  /** Length of the longest run of digits that `t` starts with. */
  function DigitRun(t: string): (n: nat)
    ensures n <= |t|
    ensures forall i :: 0 <= i < n ==> IsDigit(t[i])
    ensures n < |t| ==> !IsDigit(t[n])
  {
    if t != [] && IsDigit(t[0]) then 1 + DigitRun(t[1..]) else 0
  }

  lemma {:induction false} DigitRunStops(d: string, rest: string)
    requires AllDigits(d)
    requires rest != [] && !IsDigit(rest[0])
    ensures DigitRun(d + rest) == |d|
  {
    if d != [] {
      assert (d + rest)[1..] == d[1..] + rest;
      DigitRunStops(d[1..], rest);
    }
  }

  /**
   What the `Display` of a result reveals: whether it is classified as an
   error, its status code, and the one output channel it shows.
   */
  datatype Shown = Shown(failed: bool, code: nat, channel: Option<string>)

  /** Reads `Result: Err(<code>, stderr: <dbg>)` or `Result: Ok(<code>, stdout: <dbg>)` back. */
  function ParseDisplay(s: string): Option<Shown> {
    if |s| >= 12 && s[..12] == "Result: Err(" then ParseDisplayBody(s[12..], true, ", stderr: ")
    else if |s| >= 11 && s[..11] == "Result: Ok(" then ParseDisplayBody(s[11..], false, ", stdout: ")
    else None
  }

  function ParseDisplayBody(t: string, failed: bool, tag: string): Option<Shown> {
    var n := DigitRun(t);
    var rest := t[n..];
    if n == 0 || |rest| < |tag| + 1 || rest[..|tag|] != tag || rest[|rest| - 1] != ')' then None
    else
      match ParseDebugOption(rest[|tag|..|rest| - 1])
      case None => None
      case Some(ch) => Some(Shown(failed, DigitsValue(t[..n]), ch))
  }

  /** Splitting `tag + x + ")"` back into its three parts. */
  lemma TaggedSplit(tag: string, x: string)
    ensures var rest := tag + x + ")";
            |rest| >= |tag| + 1 && rest[..|tag|] == tag && rest[|rest| - 1] == ')' && rest[|tag|..|rest| - 1] == x
  {
    var rest := tag + x + ")";
    assert rest == tag + (x + ")");
    assert rest[..|tag|] == tag;
    assert rest[|tag|..|rest| - 1] == x;
  }

  /** What `ParseDisplayBody` yields once its input is known to split into digits, tag, channel and `)`. */
  lemma ParseDisplayBodyOf(t: string, failed: bool, tag: string, n: nat, x: string, ch: Option<string>)
    requires 0 < n <= |t| && DigitRun(t) == n
    requires t[n..] == tag + x + ")" && ParseDebugOption(x) == Some(ch)
    ensures ParseDisplayBody(t, failed, tag) == Some(Shown(failed, DigitsValue(t[..n]), ch))
  {
    TaggedSplit(tag, x);
  }

  /** The body after the prefix: the code's digits, the tag, a `{:?}` channel and `)`. */
  lemma ParseDisplayBodyRoundTrip(code: nat, x: string, ch: Option<string>, failed: bool, tag: string)
    requires |tag| >= 1 && !IsDigit(tag[0])
    requires ParseDebugOption(x) == Some(ch)
    ensures ParseDisplayBody(Decimal(code) + tag + x + ")", failed, tag) == Some(Shown(failed, code, ch))
  {
    var d := Decimal(code);
    var rest := tag + x + ")";
    var t := d + tag + x + ")";
    assert t == d + rest;
    DigitRunStops(d, rest);
    assert t[|d|..] == rest && t[..|d|] == d;
    DecimalRoundTrip(code);
    ParseDisplayBodyOf(t, failed, tag, |d|, x, ch);
  }

  /**
   The one-line rendering shared by `Result` and `ResultRepr`: the
   classification picks the word and the channel label, the code is written
   in decimal and the channel in `{:?}` form. `ParseDisplay` reads every line
   back as exactly the classification, code and channel it was made from.
   */
  function Line(failed: bool, code: nat, ch: Option<string>): (s: string)
    ensures |s| > 20
    ensures ParseDisplay(s) == Some(Shown(failed, code, ch))
  {
    if failed then
      ParseDisplayErr(code, DebugOption(ch), ch);
      "Result: Err(" + Decimal(code) + ", stderr: " + DebugOption(ch) + ")"
    else
      ParseDisplayOk(code, DebugOption(ch), ch);
      "Result: Ok(" + Decimal(code) + ", stdout: " + DebugOption(ch) + ")"
  }

  /** Regrouping a quoted channel inside a rendered line. */
  lemma Regroup(head: string, d: string, tag: string, text: string)
    ensures head + d + tag + ("Some(\"" + text + "\")") + ")" == head + d + (tag + "Some(\"") + text + "\"))"
  {
    assert "\")" + ")" == "\"))";
  }

  /** With plain text in the channel, the line quotes it as it is. */
  lemma LinePlain(failed: bool, code: nat, text: string)
    requires forall i :: 0 <= i < |text| ==> PlainChar(text[i])
    ensures failed ==> Line(failed, code, Some(text)) == "Result: Err(" + Decimal(code) + ", stderr: Some(\"" + text + "\"))"
    ensures !failed ==> Line(failed, code, Some(text)) == "Result: Ok(" + Decimal(code) + ", stdout: Some(\"" + text + "\"))"
  {
    DebugOptionPlain(text);
    if failed {
      Regroup("Result: Err(", Decimal(code), ", stderr: ", text);
      assert ", stderr: " + "Some(\"" == ", stderr: Some(\"";
    } else {
      Regroup("Result: Ok(", Decimal(code), ", stdout: ", text);
      assert ", stdout: " + "Some(\"" == ", stdout: Some(\"";
    }
  }

  /** The fixed text in front of the channel for the two codes the tests use. */
  lemma TestCodePrefixes()
    ensures "Result: Err(" + Decimal(1) + ", stderr: Some(\"" == "Result: Err(1, stderr: Some(\""
    ensures "Result: Ok(" + Decimal(0) + ", stdout: Some(\"" == "Result: Ok(0, stdout: Some(\""
  {
    assert Decimal(1) == "1" && Decimal(0) == "0";
  }

  /** The line of the tests' failure case: code 1 with its stderr. */
  lemma LinePlainCodeOne(text: string)
    requires forall i :: 0 <= i < |text| ==> PlainChar(text[i])
    ensures Line(true, 1, Some(text)) == "Result: Err(1, stderr: Some(\"" + text + "\"))"
  {
    LinePlain(true, 1, text);
    TestCodePrefixes();
  }

  /** The line of the tests' success case: code 0 with its stdout. */
  lemma LinePlainCodeZero(text: string)
    requires forall i :: 0 <= i < |text| ==> PlainChar(text[i])
    ensures Line(false, 0, Some(text)) == "Result: Ok(0, stdout: Some(\"" + text + "\"))"
  {
    LinePlain(false, 0, text);
    TestCodePrefixes();
  }

  /** Two lines are equal exactly when they were made from the same classification, code and channel. */
  lemma LineInjective(f1: bool, c1: nat, ch1: Option<string>, f2: bool, c2: nat, ch2: Option<string>)
    ensures Line(f1, c1, ch1) == Line(f2, c2, ch2) <==> f1 == f2 && c1 == c2 && ch1 == ch2
  {
  }

  /** The failure rendering is read back as exactly the code and stderr it shows. */
  lemma ParseDisplayErr(code: nat, x: string, stderr: Option<string>)
    requires ParseDebugOption(x) == Some(stderr)
    ensures ParseDisplay("Result: Err(" + Decimal(code) + ", stderr: " + x + ")") == Some(Shown(true, code, stderr))
  {
    var body := Decimal(code) + ", stderr: " + x + ")";
    var s := "Result: Err(" + body;
    assert s == "Result: Err(" + Decimal(code) + ", stderr: " + x + ")";
    assert s[..12] == "Result: Err(";
    assert s[12..] == body;
    ParseDisplayBodyRoundTrip(code, x, stderr, true, ", stderr: ");
  }

  /** The success rendering is read back as exactly the code and stdout it shows. */
  lemma ParseDisplayOk(code: nat, x: string, stdout: Option<string>)
    requires ParseDebugOption(x) == Some(stdout)
    ensures ParseDisplay("Result: Ok(" + Decimal(code) + ", stdout: " + x + ")") == Some(Shown(false, code, stdout))
  {
    var body := Decimal(code) + ", stdout: " + x + ")";
    var s := "Result: Ok(" + body;
    assert s == "Result: Ok(" + Decimal(code) + ", stdout: " + x + ")";
    assert s[..11] == "Result: Ok(";
    assert s[..12][8] == 'O';
    assert s[..12] != "Result: Err(";
    assert s[11..] == body;
    ParseDisplayBodyRoundTrip(code, x, stdout, false, ", stdout: ");
  }
}
