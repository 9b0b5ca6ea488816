/**
 * `phantomHAR`: the arguments the capture process is started with, and the
 * error string derived from how it exited.
 */
module Capture {
  import opened Wrappers

  /** How the capture process ended: an exit code, or `null` when killed by a signal. */
  datatype Exit = Exited(code: int) | Killed

  /** app.js lines 18-24: the capture script, the URL, and the delay only when one is given. */
  function CaptureArgs(script: string, url: string, delay: Option<string>): seq<string>
  {
    [script, url] + (if delay.Some? then [delay.value] else [])
  }

  /** A digit character. */
  predicate IsDigit(c: char)
  {
    '0' <= c <= '9'
  }

  /** The decimal digits of `n`, most significant first, without leading zeros. */
  function NatText(n: nat): (s: string)
    ensures |s| >= 1
    ensures forall i :: 0 <= i < |s| ==> IsDigit(s[i])
    ensures |s| > 1 ==> s[0] != '0'
    decreases n
  {
    if n < 10 then ["0123456789"[n]] else NatText(n / 10) + ["0123456789"[n % 10]]
  }

  /** The number a string of digits denotes. */
  function DigitsValue(s: string): nat
    requires forall i :: 0 <= i < |s| ==> IsDigit(s[i])
    decreases |s|
  {
    if s == [] then 0 else 10 * DigitsValue(s[..|s| - 1]) + DigitValue(s[|s| - 1])
  }

  function DigitValue(c: char): nat
    requires IsDigit(c)
  {
    c as int - '0' as int
  }

  /** JavaScript's rendering of an exit code as a string. */
  function IntText(n: int): (s: string)
    ensures |s| >= 1
    ensures n < 0 <==> s[0] == '-'
    ensures s[0] == '-' || IsDigit(s[0])
    ensures forall i :: 1 <= i < |s| ==> IsDigit(s[i])
  {
    if n < 0 then "-" + NatText(-n) else NatText(n)
  }

  /** The number an IntText string denotes. */
  function IntValue(s: string): int
    requires |s| >= 1
    requires forall i :: 1 <= i < |s| ==> IsDigit(s[i])
    requires s[0] == '-' || IsDigit(s[0])
  {
    if s[0] == '-' then -(DigitsValue(s[1..]) as int) else DigitsValue(s)
  }

  lemma {:induction false} NatTextRoundTrip(n: nat)
    ensures DigitsValue(NatText(n)) == n
    decreases n
  {
    if n >= 10 {
      NatTextRoundTrip(n / 10);
      var s := NatText(n);
      assert s[..|s| - 1] == NatText(n / 10);
    }
  }

  /** The exit code can be read back from its text. */
  lemma IntTextRoundTrip(n: int)
    ensures IntValue(IntText(n)) == n
  {
    if n < 0 {
      NegativeTextRoundTrip(n);
    } else {
      NatTextRoundTrip(n);
    }
  }

  /** A negative code's text is a minus sign before the digits of its magnitude. */
  lemma NegativeTextRoundTrip(n: int)
    requires n < 0
    ensures IntValue(IntText(n)) == n
  {
    var s, t := IntText(n), NatText(-n);
    assert s[1..] == t;
    assert IntValue(s) == -(DigitsValue(t) as int);
    NatTextRoundTrip(-n);
  }

  /** `'' + code` in the exit message; a killed process reports `null`. */
  function ExitText(exit: Exit): string
  {
    match exit
    case Exited(code) => IntText(code)
    case Killed => "null"
  }

  /**
   * app.js lines 38-47: the error string handed to the callback. A non-zero exit
   * (or a kill) with stderr output reports that output; without output it
   * names the script and the exit code; a zero exit passes stderr on as it is.
   */
  function ExitError(exit: Exit, stderr: string, script: string): (err: string)
    ensures exit == Exited(0) ==> err == stderr
    ensures exit != Exited(0) && stderr != "" ==> err == "stderr: " + stderr
    ensures exit != Exited(0) && stderr == "" ==> err == "phantomjs " + script + " exited: " + ExitText(exit)
    ensures err != "" <==> exit != Exited(0) || stderr != ""
  {
    if exit != Exited(0) then
      if stderr != "" then "stderr: " + stderr
      else "phantomjs " + script + " exited: " + ExitText(exit)
    else
      stderr
  }

  /** The error a silent non-zero exit produces names that exit code. */
  lemma ExitMessageNamesCode(code: int, script: string)
    requires code != 0
    ensures
      var err := ExitError(Exited(code), "", script);
      var prefix := "phantomjs " + script + " exited: ";
      && |err| > |prefix| && err[..|prefix|] == prefix
      && (forall i :: |prefix| + 1 <= i < |err| ==> IsDigit(err[i]))
      && (err[|prefix|] == '-' || IsDigit(err[|prefix|]))
      && IntValue(err[|prefix|..]) == code
  {
    var prefix := "phantomjs " + script + " exited: ";
    var err := ExitError(Exited(code), "", script);
    assert err == prefix + IntText(code);
    assert err[|prefix|..] == IntText(code);
    IntTextRoundTrip(code);
  }
}
