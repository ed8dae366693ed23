/** Text the repository builds by concatenation, and why it can be read back:
    decimal numerals and NUL-joined keys. */
module Text {

  // ---------- Decimal numerals ----------

  function Digit(d: nat): char
    requires d < 10
  {
    ('0' as int + d) as char
  }

  predicate IsDigit(c: char) {
    '0' <= c <= '9'
  }

  function Decimal(n: nat): (r: string)
    ensures r != [] && forall i :: 0 <= i < |r| ==> IsDigit(r[i])
  {
    if n < 10 then [Digit(n)] else Decimal(n / 10) + [Digit(n % 10)]
  }

  function Numeral(s: string): nat
    requires forall i :: 0 <= i < |s| ==> IsDigit(s[i])
  {
    if s == [] then 0
    else
      assert IsDigit(s[|s| - 1]);
      10 * Numeral(s[..|s| - 1]) + (s[|s| - 1] as int - '0' as int)
  }

  lemma {:induction false} NumeralOfDecimal(n: nat)
    ensures Numeral(Decimal(n)) == n
  {
    var d := Decimal(n);
    if n < 10 {
      assert d[..0] == [];
    } else {
      assert d[..|d| - 1] == Decimal(n / 10);
      NumeralOfDecimal(n / 10);
    }
  }

  // ---------- NUL-joined keys ----------

  const NUL := '\0'

  predicate NulFree(s: string) {
    forall i :: 0 <= i < |s| ==> s[i] != NUL
  }

  function Nuls(s: string): nat {
    if s == [] then 0 else (if s[0] == NUL then 1 else 0) + Nuls(s[1..])
  }

  lemma {:induction false} NulsConcat(a: string, b: string)
    ensures Nuls(a + b) == Nuls(a) + Nuls(b)
  {
    if a == [] {
      assert a + b == b;
    } else {
      assert (a + b)[1..] == a[1..] + b;
      NulsConcat(a[1..], b);
    }
  }

  lemma {:induction false} NulsZero(s: string)
    ensures Nuls(s) == 0 <==> NulFree(s)
  {
    if s != [] {
      NulsZero(s[1..]);
      assert NulFree(s) <==> s[0] != NUL && NulFree(s[1..]) by {
        if s[0] != NUL && NulFree(s[1..]) {
          forall i | 0 <= i < |s| ensures s[i] != NUL {
            assert i == 0 || s[i] == s[1..][i - 1];
          }
        }
      }
    }
  }

  function JoinNul(parts: seq<string>): string
    requires parts != []
  {
    if |parts| == 1 then parts[0] else parts[0] + [NUL] + JoinNul(parts[1..])
  }

  predicate AllNulFree(parts: seq<string>) {
    forall i :: 0 <= i < |parts| ==> NulFree(parts[i])
  }

  lemma {:induction false} NulsJoin(parts: seq<string>)
    requires parts != []
    ensures Nuls(JoinNul(parts)) >= |parts| - 1
    ensures Nuls(JoinNul(parts)) == |parts| - 1 ==> AllNulFree(parts)
    ensures AllNulFree(parts) ==> Nuls(JoinNul(parts)) == |parts| - 1
  {
    NulsZero(parts[0]);
    if |parts| > 1 {
      NulsJoin(parts[1..]);
      NulsConcat(parts[0] + [NUL], JoinNul(parts[1..]));
      NulsConcat(parts[0], [NUL]);
      assert Nuls([NUL]) == 1 by { assert [NUL][1..] == []; }
      assert AllNulFree(parts) <==> NulFree(parts[0]) && AllNulFree(parts[1..]) by {
        if NulFree(parts[0]) && AllNulFree(parts[1..]) {
          forall i | 0 <= i < |parts| ensures NulFree(parts[i]) {
            assert i == 0 || parts[i] == parts[1..][i - 1];
          }
        }
      }
    }
  }

  lemma EndsByNul(part: string, s: string, k: nat)
    requires NulFree(part) && part <= s && k < |s| && s[k] == NUL
    ensures |part| <= k
  {
    assert forall i {:trigger s[i]} :: 0 <= i < |part| ==> s[i] == part[i];
  }

  lemma {:induction false} PeelNul(a: seq<string>, b: seq<string>)
    requires |a| == |b| > 0 && AllNulFree(a) && AllNulFree(b) && JoinNul(a) == JoinNul(b)
    ensures a == b
  {
    if |a| > 1 {
      var j := JoinNul(a);
      assert j[|a[0]|] == NUL && j[|b[0]|] == NUL;
      assert j[..|a[0]|] == a[0] && j[..|b[0]|] == b[0];
      EndsByNul(a[0], j, |b[0]|);
      EndsByNul(b[0], j, |a[0]|);
      assert j[|a[0]| + 1..] == JoinNul(a[1..]) && j[|b[0]| + 1..] == JoinNul(b[1..]);
      PeelNul(a[1..], b[1..]);
      assert a == [a[0]] + a[1..] && b == [b[0]] + b[1..];
    }
  }

  /** A key joined from NUL-free parts is the key of no other list of that length,
      not even of one whose parts contain NULs. */
  lemma JoinNulDecides(a: seq<string>, b: seq<string>)
    requires |a| == |b| > 0 && AllNulFree(a) && JoinNul(a) == JoinNul(b)
    ensures a == b
  {
    NulsJoin(a);
    NulsJoin(b);
    PeelNul(a, b);
  }
}
