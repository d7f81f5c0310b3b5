/** ASCII case mapping: the part of Python's `str.lower()` that the
    admission filter relies on when it normalises a configured string. */
module Ascii {

  predicate IsUpper(ch: char) {
    'A' <= ch <= 'Z'
  }

  /** Maps an upper-case ASCII letter to its lower-case partner and leaves
      every other character alone. */
  function LowerChar(ch: char): (r: char)
    ensures !IsUpper(r)
    ensures r == ch || IsUpper(ch)
    ensures IsUpper(ch) ==> 'a' <= r <= 'z'
    ensures IsUpper(ch) ==> r as int - 'a' as int == ch as int - 'A' as int
  {
    if IsUpper(ch) then (ch as int - 'A' as int + 'a' as int) as char else ch
  }

  /** Distinct capitals have distinct lower-case partners, and a capital's
      partner is never a character that lower-casing leaves alone, other
      than that partner itself. */
  lemma LowerCharInjective(a: char, b: char)
    requires IsUpper(a) && LowerChar(a) == LowerChar(b)
    ensures IsUpper(b) ==> a == b
    ensures !IsUpper(b) ==> b as int == a as int - 'A' as int + 'a' as int
  {
  }

  /** Lower-cases every character of `s`, keeping its length. */
  function Lower(s: string): (r: string)
    ensures |r| == |s|
    ensures forall i :: 0 <= i < |s| ==> r[i] == LowerChar(s[i])
  {
    if s == [] then [] else [LowerChar(s[0])] + Lower(s[1..])
  }

  predicate HasUpper(s: string) {
    exists i :: 0 <= i < |s| && IsUpper(s[i])
  }

  /** A lower-cased string holds no upper-case ASCII letter. */
  lemma LowerHasNoUpper(s: string)
    ensures !HasUpper(Lower(s))
  {
    var r := Lower(s);
    forall i | 0 <= i < |r| ensures !IsUpper(r[i]) {
      assert r[i] == LowerChar(s[i]);
    }
  }

  /** Lower-casing twice is the same as lower-casing once. */
  lemma {:induction false} LowerIdempotent(s: string)
    ensures Lower(Lower(s)) == Lower(s)
  {
    if s != [] {
      LowerIdempotent(s[1..]);
      assert Lower(s)[1..] == Lower(s[1..]);
    }
  }

  /** Lower-casing never changes whether a string is empty. */
  lemma LowerEmpty(s: string)
    ensures Lower(s) == "" <==> s == ""
  {
    assert |Lower(s)| == |s|;
  }

  /** A string that is already free of upper-case letters is its own lower case. */
  lemma {:induction false} LowerOfLower(s: string)
    requires !HasUpper(s)
    ensures Lower(s) == s
  {
    if s != [] {
      assert !IsUpper(s[0]);
      assert !HasUpper(s[1..]) by {
        forall i | 0 <= i < |s[1..]| ensures !IsUpper(s[1..][i]) {
          assert s[1..][i] == s[i + 1];
        }
      }
      LowerOfLower(s[1..]);
    }
  }
}
