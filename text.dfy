/** String helpers that the components rely on: JavaScript's `toLowerCase`,
    `toUpperCase` on one character, `String.prototype.includes`, and the
    decimal rendering of a non-negative integer in a template literal.
    Case mapping covers the ASCII letters only. */
module Text {

  predicate IsUpper(c: char) { 'A' <= c <= 'Z' }

  predicate IsLower(c: char) { 'a' <= c <= 'z' }

  function ToLowerChar(c: char): (r: char)
    ensures !IsUpper(r)
    ensures IsUpper(c) ==> IsLower(r) && ToUpperChar(r) == c
    ensures !IsUpper(c) ==> r == c
  {
    if IsUpper(c) then (c as int + 32) as char else c
  }

  function ToUpperChar(c: char): (r: char)
    ensures !IsLower(r)
    ensures IsLower(c) ==> IsUpper(r)
    ensures !IsLower(c) ==> r == c
  {
    if IsLower(c) then (c as int - 32) as char else c
  }

  /** `s.toLowerCase()` */
  function ToLower(s: string): (r: string)
    ensures |r| == |s|
    ensures forall i :: 0 <= i < |r| ==> !IsUpper(r[i])
    ensures forall i :: 0 <= i < |s| ==>
      && (!IsUpper(s[i]) ==> r[i] == s[i])
      && (IsUpper(s[i]) ==> ToUpperChar(r[i]) == s[i])
  {
    seq(|s|, i requires 0 <= i < |s| => ToLowerChar(s[i]))
  }

  /** `s.charAt(0).toUpperCase() + s.slice(1)` */
  function UpperFirst(s: string): (r: string)
    ensures |r| == |s|
    ensures |s| > 0 ==> !IsLower(r[0]) && r[1..] == s[1..]
  {
    if s == [] then [] else [ToUpperChar(s[0])] + s[1..]
  }

  /** `s.slice(-1)`: the last character, or "" for the empty string. */
  function LastChar(s: string): (r: string)
    ensures |s| > 0 ==> r == [s[|s| - 1]]
    ensures |s| == 0 ==> r == ""
  {
    if s == [] then [] else s[|s| - 1..]
  }

  /** `w` occurs in `s` starting at index `i`. */
  ghost predicate OccursAt(s: string, w: string, i: int)
  {
    0 <= i && i + |w| <= |s| && s[i..i + |w|] == w
  }

  /** `s.includes(w)`: substring containment, by scanning start positions. */
  function Includes(s: string, w: string): (r: bool)
    ensures r <==> exists i :: OccursAt(s, w, i)
    decreases |s|
  {
    if |w| <= |s| && s[..|w|] == w then
      assert OccursAt(s, w, 0);
      true
    else if |s| == 0 then
      false
    else
      var r := Includes(s[1..], w);
      assert r ==> exists i :: OccursAt(s, w, i) by {
        if r {
          var j :| OccursAt(s[1..], w, j);
          assert s[1..][j..j + |w|] == s[j + 1..j + 1 + |w|];
          assert OccursAt(s, w, j + 1);
        }
      }
      assert (exists i :: OccursAt(s, w, i)) ==> r by {
        if exists i :: OccursAt(s, w, i) {
          var i :| OccursAt(s, w, i);
          assert i != 0;
          assert s[1..][i - 1..i - 1 + |w|] == s[i..i + |w|];
          assert OccursAt(s[1..], w, i - 1);
        }
      }
      r
  }

  /** A containing string contains every part of it. */
  lemma IncludesOfConcat(a: string, w: string, b: string)
    ensures Includes(a + w + b, w)
  {
    assert (a + w + b)[|a|..|a| + |w|] == w;
    assert OccursAt(a + w + b, w, |a|);
  }

  predicate IsDigit(c: char) { '0' <= c <= '9' }

  predicate AllDigits(s: string) { forall i :: 0 <= i < |s| ==> IsDigit(s[i]) }

  function DigitChar(d: nat): (c: char)
    requires d < 10
    ensures IsDigit(c)
  {
    ('0' as int + d) as char
  }

  function DigitValue(c: char): (d: nat)
    requires IsDigit(c)
    ensures d < 10
    ensures DigitChar(d) == c
  {
    c as int - '0' as int
  }

  /** The decimal rendering of `n` that `${n}` produces: no sign, no leading zero. */
  function NatToString(n: nat): (r: string)
    ensures |r| >= 1 && AllDigits(r)
    ensures |r| > 1 ==> r[0] != '0'
    decreases n
  {
    if n < 10 then [DigitChar(n)] else NatToString(n / 10) + [DigitChar(n % 10)]
  }

  /** The value of a string of decimal digits. */
  function ParseDigits(s: string): (n: nat)
    requires AllDigits(s)
    decreases |s|
  {
    if s == [] then 0 else ParseDigits(s[..|s| - 1]) * 10 + DigitValue(s[|s| - 1])
  }

  lemma {:induction false} ParseNatToString(n: nat)
    ensures ParseDigits(NatToString(n)) == n
    decreases n
  {
    if n >= 10 {
      var s := NatToString(n);
      assert s[..|s| - 1] == NatToString(n / 10);
      ParseNatToString(n / 10);
    }
  }
}
