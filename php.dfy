/** The few PHP language semantics that the gateway's decisions depend on. */
module Php {
  import opened Wrappers

  /** PHP's `empty()` applied to a string: the empty string and the string "0"
      are both empty; every other string is not. */
  predicate Empty(s: string)
    ensures Empty(s) ==> |s| <= 1 && (|s| == 1 ==> s[0] == '0')
  {
    s == "" || s == "0"
  }

  /** PHP's `$x ? $x : ''` for an accessor that yields a string or `false`
      (`None`): a string is truthy exactly when it is not `empty()`. */
  function OrEmpty(v: Option<string>): (r: string)
    ensures r == "" <==> v.None? || Empty(v.value)
    ensures r != "" ==> v == Some(r)
    ensures r != "0"
  {
    if v.Some? && !Empty(v.value) then v.value else ""
  }

  /** The characters PHP's `trim()` strips by default: space, tab, line feed,
      carriage return, NUL and vertical tab. */
  predicate IsTrimmed(c: char) {
    c == ' ' || c == '\t' || c == '\n' || c == '\r' || c as int == 0 || c as int == 11
  }

  /** PHP's `ltrim()` with the default character list. */
  function TrimStart(s: string): (r: string)
    ensures |r| <= |s| && r == s[|s| - |r|..]
    ensures r == [] || !IsTrimmed(r[0])
    ensures forall k :: 0 <= k < |s| - |r| ==> IsTrimmed(s[k])
    decreases |s|
  {
    if s != [] && IsTrimmed(s[0]) then TrimStart(s[1..]) else s
  }

  /** PHP's `rtrim()` with the default character list. */
  function TrimEnd(s: string): (r: string)
    ensures |r| <= |s| && r == s[..|r|]
    ensures r == [] || !IsTrimmed(r[|r| - 1])
    ensures forall k :: |r| <= k < |s| ==> IsTrimmed(s[k])
    decreases |s|
  {
    if s != [] && IsTrimmed(s[|s| - 1]) then TrimEnd(s[..|s| - 1]) else s
  }

  /** PHP's `trim()` with the default character list: what is left has no
      strippable character at either end. */
  function Trim(s: string): (r: string)
    ensures |r| <= |s|
    ensures r == [] || (!IsTrimmed(r[0]) && !IsTrimmed(r[|r| - 1]))
  {
    TrimEnd(TrimStart(s))
  }

  /** The characters PHP's `addslashes()` escapes: single quote, double quote,
      backslash and NUL. */
  predicate NeedsSlash(c: char) {
    c == '\'' || c == '"' || c == '\\' || c as int == 0
  }

  /** PHP's `addslashes()`: a backslash before every quote, double quote and
      backslash, and a NUL replaced by a backslash and the digit `0`. The
      result is longer than the input exactly when the input holds such a
      character, and equal to it otherwise. */
  function AddSlashes(s: string): (r: string)
    ensures |r| >= |s|
    ensures (exists k :: 0 <= k < |s| && NeedsSlash(s[k])) ==> |r| > |s|
    ensures (forall k :: 0 <= k < |s| ==> !NeedsSlash(s[k])) ==> r == s
  {
    if s == [] then []
    else
      var rest := AddSlashes(s[1..]);
      if s[0] as int == 0 then ['\\', '0'] + rest
      else if NeedsSlash(s[0]) then ['\\', s[0]] + rest
      else [s[0]] + rest
  }

  /** PHP's `stripslashes()`: a backslash and the digit `0` become a NUL, a
      backslash before any other character is dropped, and a lone trailing
      backslash disappears. */
  function StripSlashes(s: string): (r: string)
    ensures |r| <= |s|
    decreases |s|
  {
    if s == [] then []
    else if s[0] == '\\' then
      if |s| == 1 then []
      else (if s[1] == '0' then [0 as char] else [s[1]]) + StripSlashes(s[2..])
    else [s[0]] + StripSlashes(s[1..])
  }

  /** `stripslashes()` undoes `addslashes()`, so no two strings are slashed alike. */
  lemma {:induction false} StripAddSlashes(s: string)
    ensures StripSlashes(AddSlashes(s)) == s
  {
    if s != [] {
      var rest := AddSlashes(s[1..]);
      StripAddSlashes(s[1..]);
      if NeedsSlash(s[0]) {
        var escaped := if s[0] as int == 0 then '0' else s[0];
        assert AddSlashes(s) == ['\\', escaped] + rest;
        assert (['\\', escaped] + rest)[2..] == rest;
      } else {
        assert AddSlashes(s) == [s[0]] + rest;
        assert ([s[0]] + rest)[1..] == rest;
      }
    }
  }

  /** PHP's `substr($s, 0, $n)` for a non-negative length. */
  function Prefix(s: string, n: nat): (r: string)
    ensures |r| == if n < |s| then n else |s|
    ensures r <= s
  {
    if n < |s| then s[..n] else s
  }

  /** `strtoupper()` on one character, locale-independent since PHP 8.2: only the
      ASCII letters a-z change. */
  function UpperChar(c: char): char {
    if 'a' <= c <= 'z' then (c as int - 32) as char else c
  }

  /** `strtoupper()` as PHP 8.2 and later define it. */
  function ToUpper(s: string): (r: string)
    ensures |r| == |s|
    ensures forall k :: 0 <= k < |s| ==> r[k] == UpperChar(s[k])
  {
    seq(|s|, k requires 0 <= k < |s| => UpperChar(s[k]))
  }
}
