/**
 * The two form validators: `isValidCode` for short codes and `validateUrl`
 * for URLs to shorten.
 */
module Validators {
  import opened Wrappers

  /** A character of the class `[a-zA-Z0-9_-]`. */
  predicate CodeChar(c: char) {
    ('a' <= c <= 'z') || ('A' <= c <= 'Z') || ('0' <= c <= '9') || c == '_' || c == '-'
  }

  /** A test of `/^[a-zA-Z0-9_-]+$/`: one character of the class, then zero or more,
      then the end of the input (without the `m` flag, `$` matches only there). */
  predicate MatchesCodePattern(s: string)
    decreases |s|
  {
    |s| >= 1 && CodeChar(s[0]) && (|s| == 1 || MatchesCodePattern(s[1..]))
  }

  /** The pattern accepts exactly the non-empty strings drawn from the class. */
  lemma {:induction false} CodePatternExact(s: string)
    ensures MatchesCodePattern(s) <==> |s| >= 1 && forall i :: 0 <= i < |s| ==> CodeChar(s[i])
    decreases |s|
  {
    if |s| > 1 {
      CodePatternExact(s[1..]);
      assert forall i :: 1 <= i < |s| ==> s[i] == s[1..][i - 1];
    }
  }

  /** `isValidCode(code)`: drawn from `[a-zA-Z0-9_-]` and 5 to 10 characters long. */
  function IsValidCode(code: string): (ok: bool)
    ensures ok <==> 5 <= |code| <= 10 && forall i :: 0 <= i < |code| ==> CodeChar(code[i])
  {
    CodePatternExact(code);
    MatchesCodePattern(code) && |code| >= 5 && |code| <= 10
  }

  /** Length alone rejects a code, whatever its characters; the empty string included. */
  lemma CodeLengthBounds(code: string)
    ensures |code| < 5 || |code| > 10 ==> !IsValidCode(code)
    ensures !IsValidCode("")
  {
  }

  /** One character outside the class anywhere rejects a code. */
  lemma OneBadCharRejects(code: string, i: nat)
    requires i < |code| && !CodeChar(code[i])
    ensures !IsValidCode(code)
  {
  }

  /** `_` and `-` are accepted at any position, first and last included. */
  lemma CodeExamples()
    ensures IsValidCode("ab_12")
    ensures IsValidCode("_abc-")
    ensures IsValidCode("-x9Z_0aaaa")
    ensures !IsValidCode("ab")
    ensures !IsValidCode("abcde!")
    ensures !IsValidCode("abcdefghijk")
  {
    assert "abcde!"[5] == '!';
  }

  /** The `protocol` of a parsed URL: its scheme followed by ':'. */
  function Protocol(scheme: string): (p: string)
    ensures |p| == |scheme| + 1 && p[..|scheme|] == scheme && p[|scheme|] == ':'
  {
    scheme + ":"
  }

  /** `validateUrl(urlString)`. `parse` stands for the URL Standard's parser behind
      `new URL(urlString)`: the scheme of the parsed URL, or None where the
      constructor throws, which the catch turns into false. */
  function ValidateUrl(parse: string -> Option<string>, urlString: string): (ok: bool)
    ensures ok <==> parse(urlString) == Some("http") || parse(urlString) == Some("https")
    ensures parse(urlString).None? ==> !ok
  {
    match parse(urlString)
    case None => false
    case Some(scheme) =>
      ProtocolInjective(scheme, "http");
      ProtocolInjective(scheme, "https");
      Protocol(scheme) == "http:" || Protocol(scheme) == "https:"
  }

  /** Distinct schemes have distinct protocols. */
  lemma ProtocolInjective(a: string, b: string)
    ensures Protocol(a) == Protocol(b) <==> a == b
  {
    if Protocol(a) == Protocol(b) {
      assert a == Protocol(a)[..|a|];
    }
  }

  /** Any other scheme, such as `ftp`, is refused. */
  lemma OtherSchemesRejected(parse: string -> Option<string>, urlString: string)
    requires parse(urlString).Some? && parse(urlString).value != "http" && parse(urlString).value != "https"
    ensures !ValidateUrl(parse, urlString)
  {
  }
}
