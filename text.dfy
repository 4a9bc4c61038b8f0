/** Text helpers used by the searches of model.py: ASCII lower-casing,
    Python's substring test `q in s`, and `str()` of an integer. */
module Text {

  /** Lower-cases one character; only the ASCII letters A-Z change. */
  function LowerChar(c: char): (r: char)
    ensures 'A' <= c <= 'Z' ==> 'a' <= r <= 'z' && r as int == c as int + 32
    ensures !('A' <= c <= 'Z') ==> r == c
    ensures !('A' <= r <= 'Z')
  {
    if 'A' <= c <= 'Z' then (c as int + 32) as char else c
  }

  /** `s.lower()`, restricted to ASCII case mapping. */
  function Lower(s: string): (r: string)
    ensures |r| == |s|
    ensures forall i :: 0 <= i < |s| ==> r[i] == LowerChar(s[i])
  {
    if s == [] then [] else [LowerChar(s[0])] + Lower(s[1..])
  }

  /** A string without upper-case ASCII letters. */
  predicate IsLowerCase(s: string) {
    forall i :: 0 <= i < |s| ==> !('A' <= s[i] <= 'Z')
  }

  lemma LowerIsLowerCase(s: string)
    ensures IsLowerCase(Lower(s))
  {
  }

  /** Lower-casing leaves a string without upper-case letters unchanged. */
  lemma LowerOfLowerCase(s: string)
    requires IsLowerCase(s)
    ensures Lower(s) == s
  {
  }

  lemma LowerIdempotent(s: string)
    ensures Lower(Lower(s)) == Lower(s)
  {
    LowerIsLowerCase(s);
    LowerOfLowerCase(Lower(s));
  }

  /** `q` occurs in `s` at position `i`. */
  ghost predicate OccursAt(q: string, s: string, i: int) {
    0 <= i && i + |q| <= |s| && s[i..i + |q|] == q
  }

  /** An occurrence at i >= 1 is an occurrence at i - 1 in the tail. */
  lemma OccursTail(q: string, s: string, i: int)
    requires |s| >= 1 && i >= 1
    ensures OccursAt(q, s, i) <==> OccursAt(q, s[1..], i - 1)
  {
    if i + |q| <= |s| {
      assert s[1..][i - 1..i - 1 + |q|] == s[i..i + |q|];
    }
  }

  /** Python's `q in s` for strings: `q` is a contiguous substring of `s`. */
  function Contains(s: string, q: string): (r: bool)
    ensures r <==> exists i :: OccursAt(q, s, i)
    decreases |s|
  {
    if |q| > |s| then false
    else if s[..|q|] == q then
      assert OccursAt(q, s, 0);
      true
    else
      var rest := Contains(s[1..], q);
      if rest then
        assert exists i :: OccursAt(q, s, i) by {
          var j :| OccursAt(q, s[1..], j);
          OccursTail(q, s, j + 1);
        }
        true
      else
        assert !exists i :: OccursAt(q, s, i) by {
          forall i | OccursAt(q, s, i) ensures false {
            if i >= 1 {
              OccursTail(q, s, i);
            }
          }
        }
        false
  }

  /** Lower-casing commutes with taking a slice. */
  lemma {:induction false} LowerSlice(s: string, i: int, j: int)
    requires 0 <= i <= j <= |s|
    ensures Lower(s)[i..j] == Lower(s[i..j])
  {
    var l, m := Lower(s)[i..j], Lower(s[i..j]);
    assert |l| == |m| == j - i;
    forall k | 0 <= k < j - i
      ensures l[k] == m[k]
    {
      assert l[k] == Lower(s)[i + k] == LowerChar(s[i + k]);
      assert m[k] == LowerChar(s[i..j][k]);
    }
  }

  /** An occurrence survives lower-casing both strings. */
  lemma OccursLower(q: string, s: string, i: int)
    requires OccursAt(q, s, i)
    ensures OccursAt(Lower(q), Lower(s), i)
  {
    LowerSlice(s, i, i + |q|);
  }

  /** A substring match survives lower-casing both sides: searching with a
      lowered query in a lowered field finds every case-exact match. */
  lemma ContainsLower(s: string, q: string)
    requires Contains(s, q)
    ensures Contains(Lower(s), Lower(q))
  {
    var i :| OccursAt(q, s, i);
    OccursLower(q, s, i);
  }

  /** The decimal digit character for 0 <= d < 10. */
  function DigitChar(d: int): (c: char)
    requires 0 <= d < 10
    ensures '0' <= c <= '9' && c as int - '0' as int == d
  {
    ('0' as int + d) as char
  }

  /** `str(n)` for n >= 0: decimal digits, most significant first, no leading zero. */
  function NatToString(n: nat): (r: string)
    ensures |r| >= 1
    ensures forall i :: 0 <= i < |r| ==> '0' <= r[i] <= '9'
    ensures n > 0 <==> r[0] != '0'
    ensures r[0] == '0' ==> r == "0"
    decreases n
  {
    if n < 10 then [DigitChar(n)] else NatToString(n / 10) + [DigitChar(n % 10)]
  }

  /** Python's `str(n)` for an integer. */
  function IntToString(n: int): (r: string)
    ensures |r| >= 1
    ensures forall i :: 0 <= i < |r| ==> r[i] == '-' || '0' <= r[i] <= '9'
    ensures (r[0] == '-') <==> n < 0
    ensures forall i :: 1 <= i < |r| ==> '0' <= r[i] <= '9'
    ensures var d := if n < 0 then r[1..] else r; |d| >= 1 && (d[0] == '0' ==> d == "0")
  {
    if n < 0 then "-" + NatToString(-n) else NatToString(n)
  }

  /** Reads back a string of decimal digits (the inverse of NatToString). */
  function ParseDigits(s: string): (n: nat)
    requires forall i :: 0 <= i < |s| ==> '0' <= s[i] <= '9'
  {
    if s == [] then 0 else 10 * ParseDigits(s[..|s| - 1]) + (s[|s| - 1] as int - '0' as int)
  }

  /** Reads back a signed decimal string. */
  function ParseInt(s: string): (n: int)
    requires |s| >= 1
    requires forall i :: 0 <= i < |s| ==> s[i] == '-' || '0' <= s[i] <= '9'
    requires forall i :: 1 <= i < |s| ==> '0' <= s[i] <= '9'
  {
    if s[0] == '-' then 0 - ParseDigits(s[1..]) as int else ParseDigits(s)
  }

  lemma {:induction false} NatToStringRoundTrip(n: nat)
    ensures ParseDigits(NatToString(n)) == n
    decreases n
  {
    if n >= 10 {
      NatToStringRoundTrip(n / 10);
      var s := NatToString(n);
      assert s[..|s| - 1] == NatToString(n / 10);
    }
  }

  /** `str` is injective on integers: distinct ids render as distinct strings. */
  lemma IntToStringRoundTrip(n: int)
    ensures ParseInt(IntToString(n)) == n
  {
    if n < 0 {
      NatToStringRoundTrip(-n);
      assert IntToString(n)[1..] == NatToString(-n);
    } else {
      NatToStringRoundTrip(n);
    }
  }

  /** `str(n)` holds no letters, so lower-casing it changes nothing. */
  lemma IntToStringIsLowerCase(n: int)
    ensures Lower(IntToString(n)) == IntToString(n)
  {
    LowerOfLowerCase(IntToString(n));
  }
}
