/**
 * Byte strings as the C library sees them, and the bounded comparison
 * `strncmp` of ISO/IEC 9899:2011 section 7.24.4.4.
 *
 * Only whether `strncmp` returns zero matters to the event handler, so the
 * comparison is modelled as a predicate: it is true exactly when the C
 * function would return 0.
 */
module CStrings {

  /** One `unsigned char`; the C standard compares characters as these. */
  newtype byte = x: int | 0 <= x < 256

  /** The null character that terminates a C string. */
  const NUL: byte := 0

  /** A byte sequence with no null character in it. */
  predicate NoNul(s: seq<byte>) {
    forall i | 0 <= i < |s| :: s[i] != NUL
  }

  /** An array that holds a C string: its last byte is the terminating null. */
  predicate Terminated(s: seq<byte>) {
    |s| > 0 && s[|s| - 1] == NUL
  }

  /** The array a string literal denotes: its characters and the terminating null. */
  function CStr(lit: seq<byte>): (s: seq<byte>)
    ensures Terminated(s) && |s| == |lit| + 1 && s[..|lit|] == lit
  {
    lit + [NUL]
  }

  /** The bytes of an ASCII text, one per character. */
  function Ascii(text: string): (s: seq<byte>)
    requires forall i | 0 <= i < |text| :: text[i] as int < 256
    ensures |s| == |text|
    ensures forall i | 0 <= i < |text| :: s[i] as int == text[i] as int
  {
    seq(|text|, i requires 0 <= i < |text| => text[i] as int as byte)
  }

  function Min(a: nat, b: nat): nat {
    if a <= b then a else b
  }

  /**
   * `strncmp(s1, s2, n) == 0`. At most `n` characters are compared, and none
   * after a null character: the scan stops with "equal" after `n` characters
   * or after a null character both arrays share, and with "different" at the
   * first position where they differ. `s1` is a buffer of at least `n`
   * readable bytes (it need not hold a null), `s2` holds a C string, so the
   * scan never reads past either.
   */
  function StrNCmpEq(s1: seq<byte>, s2: seq<byte>, n: nat): bool
    requires n <= |s1|
    requires Terminated(s2)
    decreases n
  {
    if n == 0 then true
    else if s1[0] != s2[0] then false
    else if s1[0] == NUL then true
    else StrNCmpEq(s1[1..], s2[1..], n - 1)
  }

  /**
   * Against a string literal without inner nulls, `strncmp` returns zero
   * exactly when the first `n` bytes of the buffer agree with the literal and
   * its terminator, counting no further than the terminator.
   */
  lemma {:induction false} StrNCmpEqLiteral(s: seq<byte>, lit: seq<byte>, n: nat)
    requires n <= |s|
    requires NoNul(lit)
    ensures StrNCmpEq(s, CStr(lit), n) <==>
              s[..Min(n, |lit| + 1)] == CStr(lit)[..Min(n, |lit| + 1)]
  {
    var c := CStr(lit);
    var m := Min(n, |lit| + 1);
    if n == 0 {
    } else if s[0] != c[0] {
      assert s[..m][0] != c[..m][0];
    } else if s[0] == NUL {
      assert lit == [];
      assert s[..m] == c[..m];
    } else {
      assert lit != [] && lit[0] == c[0];
      StrNCmpEqLiteral(s[1..], lit[1..], n - 1);
      assert c[1..] == CStr(lit[1..]);
      var m' := Min(n - 1, |lit[1..]| + 1);
      assert m' == m - 1;
      assert s[..m] == [s[0]] + s[1..][..m'];
      assert c[..m] == [c[0]] + c[1..][..m'];
    }
  }

  /** A consequence of the above: a buffer with no null in it matches exactly the prefixes of the literal. */
  lemma NulFreeMatchesArePrefixes(s: seq<byte>, lit: seq<byte>)
    requires NoNul(s) && NoNul(lit)
    ensures StrNCmpEq(s, CStr(lit), |s|) <==> |s| <= |lit| && s == lit[..|s|]
  {
    StrNCmpEqLiteral(s, lit, |s|);
    var c := CStr(lit);
    if |s| > |lit| {
      assert s[..|lit| + 1][|lit|] != c[..|lit| + 1][|lit|];
    } else {
      assert s[..|s|] == s;
      assert c[..|s|] == lit[..|s|];
    }
  }
}
