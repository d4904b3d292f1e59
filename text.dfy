/** String helpers shared by the dashboard's rules: substring search (JavaScript's
    `includes`, Python's `in`), ASCII case mapping, JavaScript's `trim`, Python's
    `" ".join` and the decimal rendering of an integer. */
module Text {

  /** `p` is a prefix of `s`. */
  predicate IsPrefix(p: string, s: string) {
    |p| <= |s| && s[..|p|] == p
  }

  /** `sub` occurs somewhere in `s` (the empty string occurs everywhere). */
  predicate Contains(s: string, sub: string)
    decreases |s|
  {
    IsPrefix(sub, s) || (s != [] && Contains(s[1..], sub))
  }

  /** `Contains` is "occurs at some position". */
  lemma {:induction false} ContainsIff(s: string, sub: string)
    ensures Contains(s, sub) <==> exists i :: 0 <= i <= |s| && IsPrefix(sub, s[i..])
    decreases |s|
  {
    if IsPrefix(sub, s) {
      assert s[0..] == s;
    }
    if Contains(s, sub) && !IsPrefix(sub, s) {
      ContainsIff(s[1..], sub);
      var i :| 0 <= i <= |s[1..]| && IsPrefix(sub, s[1..][i..]);
      assert s[1..][i..] == s[i + 1..];
    }
    if !Contains(s, sub) {
      forall i | 0 <= i <= |s| ensures !IsPrefix(sub, s[i..]) {
        if i > 0 {
          ContainsIff(s[1..], sub);
          assert s[1..][i - 1..] == s[i..];
        }
      }
    }
  }

  lemma ContainsAt(s: string, sub: string, i: nat)
    requires i + |sub| <= |s| && s[i..i + |sub|] == sub
    ensures Contains(s, sub)
  {
    assert IsPrefix(sub, s[i..]);
    ContainsIff(s, sub);
  }

  /** Every character of `sub` occurs in any text that contains `sub`. */
  lemma ContainsChar(s: string, sub: string, j: nat)
    requires j < |sub| && Contains(s, sub)
    ensures sub[j] in s
  {
    ContainsIff(s, sub);
    var i :| 0 <= i <= |s| && IsPrefix(sub, s[i..]);
    assert s[i..][j] == sub[j];
    assert s[i + j] == sub[j];
  }

  /** Containment is transitive. */
  lemma ContainsTrans(s: string, t: string, u: string)
    requires Contains(s, t) && Contains(t, u)
    ensures Contains(s, u)
  {
    ContainsIff(s, t);
    ContainsIff(t, u);
    var i :| 0 <= i <= |s| && IsPrefix(t, s[i..]);
    var j :| 0 <= j <= |t| && IsPrefix(u, t[j..]);
    assert s[i..i + |t|] == t;
    forall k | 0 <= k < |u|
      ensures s[i + j + k] == u[k]
    {
      assert t[j..][k] == u[k];
      assert s[i..i + |t|][j + k] == t[j + k];
    }
    assert s[i + j..i + j + |u|] == u;
    ContainsAt(s, u, i + j);
  }

  // ----- ASCII case mapping -----

  function LowerChar(c: char): char {
    if 'A' <= c <= 'Z' then (c as int + 32) as char else c
  }

  function UpperChar(c: char): char {
    if 'a' <= c <= 'z' then (c as int - 32) as char else c
  }

  function ToLower(s: string): (r: string)
    ensures |r| == |s|
    ensures forall i :: 0 <= i < |s| ==> r[i] == LowerChar(s[i])
  {
    if s == [] then [] else [LowerChar(s[0])] + ToLower(s[1..])
  }

  function ToUpper(s: string): (r: string)
    ensures |r| == |s|
    ensures forall i :: 0 <= i < |s| ==> r[i] == UpperChar(s[i])
  {
    if s == [] then [] else [UpperChar(s[0])] + ToUpper(s[1..])
  }

  lemma ToUpperConcat(a: string, b: string)
    ensures ToUpper(a + b) == ToUpper(a) + ToUpper(b)
  {
  }

  /** Upper-casing keeps containment. */
  lemma ContainsUpper(s: string, sub: string)
    requires Contains(s, sub)
    ensures Contains(ToUpper(s), ToUpper(sub))
  {
    ContainsIff(s, sub);
    var i :| 0 <= i <= |s| && IsPrefix(sub, s[i..]);
    assert ToUpper(s)[i..i + |sub|] == ToUpper(sub);
    ContainsAt(ToUpper(s), ToUpper(sub), i);
  }

  predicate IsLower(s: string) {
    forall i :: 0 <= i < |s| ==> !('A' <= s[i] <= 'Z')
  }

  /** Lower-casing yields lower-case text and leaves lower-case text alone. */
  lemma ToLowerIdempotent(s: string)
    ensures IsLower(ToLower(s))
    ensures ToLower(ToLower(s)) == ToLower(s)
    ensures IsLower(s) ==> ToLower(s) == s
  {
  }

  /** Two strings that differ only in the case of their letters. */
  predicate SameUpToCase(s: string, t: string) {
    |s| == |t| && forall i :: 0 <= i < |s| ==> LowerChar(s[i]) == LowerChar(t[i])
  }

  lemma SameUpToCaseLower(s: string, t: string)
    requires SameUpToCase(s, t)
    ensures ToLower(s) == ToLower(t)
  {
  }

  // ----- JavaScript String.prototype.trim -----

  /** The WhiteSpace and LineTerminator code points of ECMAScript. */
  predicate IsJsWhitespace(c: char) {
    c == ' ' || c == '\t' || c == '\n' || c == '\r' || c == '\U{B}' || c == '\U{C}'
    || c == '\U{A0}' || c == '\U{1680}' || ('\U{2000}' <= c <= '\U{200A}')
    || c == '\U{2028}' || c == '\U{2029}' || c == '\U{202F}' || c == '\U{205F}'
    || c == '\U{3000}' || c == '\U{FEFF}'
  }

  function TrimStart(s: string): (r: string)
    ensures |r| <= |s| && r == s[|s| - |r|..]
    ensures r == [] || !IsJsWhitespace(r[0])
    ensures forall i :: 0 <= i < |s| - |r| ==> IsJsWhitespace(s[i])
  {
    if s != [] && IsJsWhitespace(s[0]) then TrimStart(s[1..]) else s
  }

  function TrimEnd(s: string): (r: string)
    ensures |r| <= |s| && r == s[..|r|]
    ensures r == [] || !IsJsWhitespace(r[|r| - 1])
    ensures forall i :: |r| <= i < |s| ==> IsJsWhitespace(s[i])
  {
    if s != [] && IsJsWhitespace(s[|s| - 1]) then TrimEnd(s[..|s| - 1]) else s
  }

  function Trim(s: string): string {
    TrimEnd(TrimStart(s))
  }

  /** The trimmed text is empty exactly when every character is white space. */
  lemma TrimEmptyIff(s: string)
    ensures Trim(s) == [] <==> forall i :: 0 <= i < |s| ==> IsJsWhitespace(s[i])
  {
    var t := TrimStart(s);
    if Trim(s) == [] {
      // TrimStart stops at a non-blank character, which TrimEnd would keep
      assert t == [];
    } else {
      assert t != [] && !IsJsWhitespace(t[0]);
      assert s[|s| - |t|] == t[0];
    }
  }

  // ----- Python " ".join -----

  function JoinWithSpaces(parts: seq<string>): string {
    if parts == [] then ""
    else if |parts| == 1 then parts[0]
    else parts[0] + " " + JoinWithSpaces(parts[1..])
  }

  /** Every fragment appears in the joined text. */
  lemma {:induction false} JoinContainsParts(parts: seq<string>, k: nat)
    requires k < |parts|
    ensures Contains(JoinWithSpaces(parts), parts[k])
  {
    var j := JoinWithSpaces(parts);
    if |parts| == 1 {
      ContainsAt(j, parts[0], 0);
    } else if k == 0 {
      assert j == parts[0] + (" " + JoinWithSpaces(parts[1..]));
      assert j[0..|parts[0]|] == parts[0];
      ContainsAt(j, parts[0], 0);
    } else {
      var rest := JoinWithSpaces(parts[1..]);
      JoinContainsParts(parts[1..], k - 1);
      ContainsIff(rest, parts[k]);
      var i :| 0 <= i <= |rest| && IsPrefix(parts[k], rest[i..]);
      var off := |parts[0]| + 1;
      assert j == (parts[0] + " ") + rest;
      assert j[off + i..] == rest[i..];
      assert IsPrefix(parts[k], j[off + i..]);
      ContainsIff(j, parts[k]);
    }
  }

  // ----- decimal rendering of an integer, as JavaScript prints it -----

  function DigitChar(d: int): char
    requires 0 <= d < 10
  {
    "0123456789"[d]
  }

  function NatToString(n: nat): (r: string)
    ensures |r| > 0
    ensures forall i :: 0 <= i < |r| ==> '0' <= r[i] <= '9'
  {
    if n < 10 then [DigitChar(n)] else NatToString(n / 10) + [DigitChar(n % 10)]
  }

  function IntToString(n: int): string {
    if n < 0 then "-" + NatToString(-n) else NatToString(n)
  }
}
