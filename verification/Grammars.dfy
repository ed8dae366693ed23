/** The alphabets and lengths of the regular expressions and byte counts, one repeated
    character at a time. */
module Grammars {
  import opened Common
  import BrowserContract
  import Transaction

  function Many(c: char, n: nat): (r: string)
    ensures |r| == n && forall i :: 0 <= i < n ==> r[i] == c
  {
    seq(n, _ => c)
  }

  predicate LetterOrDigit(c: char) {
    c in "ABCDEFGHIJKLMNOPQRSTUVWXYZ" || c in "abcdefghijklmnopqrstuvwxyz" || c in "0123456789"
  }

  lemma Upper(c: char)
    ensures c in "ABCDEFGHIJKLMNOPQRSTUVWXYZ" <==> 'A' <= c <= 'Z'
  {
    var s := "ABCDEFGHIJKLMNOPQRSTUVWXYZ";
    if 'A' <= c <= 'Z' { assert s[c as int - 'A' as int] == c; }
  }

  lemma Lower(c: char)
    ensures c in "abcdefghijklmnopqrstuvwxyz" <==> 'a' <= c <= 'z'
  {
    var s := "abcdefghijklmnopqrstuvwxyz";
    if 'a' <= c <= 'z' { assert s[c as int - 'a' as int] == c; }
  }

  lemma Digit(c: char)
    ensures c in "0123456789" <==> '0' <= c <= '9'
  {
    var s := "0123456789";
    if '0' <= c <= '9' { assert s[c as int - '0' as int] == c; }
  }

  lemma AlphanumericIs(c: char)
    ensures Alphanumeric(c) <==> LetterOrDigit(c)
  {
    Upper(c);
    Lower(c);
    Digit(c);
  }

  /** ^[A-Za-z0-9][A-Za-z0-9_.:-]{0,127}$ */
  lemma IdentifierIs(first: char, c: char, n: nat)
    ensures Identifier([first] + Many(c, n)) <==> n <= 127 && LetterOrDigit(first) && (n == 0 || LetterOrDigit(c) || c == '_' || c == '.' || c == ':' || c == '-')
    ensures !Identifier("")
  {
    AlphanumericIs(first);
    AlphanumericIs(c);
    hide Alphanumeric, LetterOrDigit;
    var s := [first] + Many(c, n);
    assert s[0] == first && forall i :: 0 < i < |s| ==> s[i] == c;
    assert n > 0 ==> s[1] == c;
  }

  /** 1 to 128 letters, digits, `-`, `_` and `.`. */
  lemma AuthorityIdIs(c: char, n: nat)
    ensures AuthorityId(Many(c, n)) <==> 1 <= n <= 128 && (LetterOrDigit(c) || c == '-' || c == '_' || c == '.')
  {
    AlphanumericIs(c);
    hide Alphanumeric, LetterOrDigit;
    var s := Many(c, n);
    assert n > 0 ==> s[0] == c;
  }

  /** Exactly 64 digits or letters a to f, lower case. */
  lemma DigestTextIs(c: char, n: nat)
    ensures DigestText(Many(c, n)) <==> n == 64 && c in "0123456789abcdef"
  {
    assert n > 0 ==> Many(c, n)[0] == c;
    var s := "0123456789abcdef";
    if '0' <= c <= '9' { assert s[c as int - '0' as int] == c; }
    if 'a' <= c <= 'f' { assert s[c as int - 'a' as int + 10] == c; }
  }

  /** ^[A-Za-z][A-Za-z0-9_-]{0,127}$ */
  lemma SymbolIs(first: char, c: char, n: nat)
    ensures BrowserContract.Symbol([first] + Many(c, n)) <==>
            n <= 127 && LetterOrDigit(first) && first !in "0123456789" && (n == 0 || LetterOrDigit(c) || c == '_' || c == '-')
    ensures !BrowserContract.Symbol("")
  {
    AlphanumericIs(first);
    AlphanumericIs(c);
    Digit(first);
    var s := [first] + Many(c, n);
    assert s[0] == first && forall i :: 0 < i < |s| ==> s[i] == c;
    assert n > 0 ==> s[1] == c;
    hide LetterOrDigit;
  }

  /** ^[A-Za-z0-9_-]+$, at most 1024. */
  lemma ActionKeyIs(c: char, n: nat)
    ensures BrowserContract.ActionKey(Many(c, n)) <==> 1 <= n <= 1024 && (LetterOrDigit(c) || c == '_' || c == '-')
  {
    AlphanumericIs(c);
    hide Alphanumeric, LetterOrDigit;
    assert n > 0 ==> Many(c, n)[0] == c;
  }

  /** ^[a-z][a-z0-9_]{0,63}$ */
  lemma EffectNameIs(first: char, c: char, n: nat)
    ensures BrowserContract.EffectName([first] + Many(c, n)) <==>
            n <= 63 && first in "abcdefghijklmnopqrstuvwxyz" && (n == 0 || c in "abcdefghijklmnopqrstuvwxyz" || c in "0123456789" || c == '_')
    ensures !BrowserContract.EffectName("")
  {
    Lower(first);
    Lower(c);
    Digit(c);
    var s := [first] + Many(c, n);
    assert s[0] == first && forall i :: 0 < i < |s| ==> s[i] == c;
    assert n > 0 ==> s[1] == c;
  }

  /** Forty lower-case hexadecimal digits. */
  lemma CommitTextIs(c: char, n: nat)
    ensures BrowserContract.CommitText(Many(c, n)) <==> n == 40 && c in "0123456789abcdef"
  {
    assert n > 0 ==> Many(c, n)[0] == c;
    var s := "0123456789abcdef";
    if '0' <= c <= '9' { assert s[c as int - '0' as int] == c; }
    if 'a' <= c <= 'f' { assert s[c as int - 'a' as int + 10] == c; }
  }

  /** ^[a-z0-9][a-z0-9._-]{0,127}$ and ^[a-z][a-z0-9_]{0,127}$ of transactions. */
  lemma TransactionIdIs(first: char, c: char, n: nat)
    ensures Transaction.ValidId([first] + Many(c, n)) <==>
            && n <= 127 && (first in "abcdefghijklmnopqrstuvwxyz" || first in "0123456789")
            && (n == 0 || c in "abcdefghijklmnopqrstuvwxyz" || c in "0123456789" || c == '.' || c == '_' || c == '-')
    ensures Transaction.Symbol([first] + Many(c, n)) <==>
            && n <= 127 && first in "abcdefghijklmnopqrstuvwxyz"
            && (n == 0 || c in "abcdefghijklmnopqrstuvwxyz" || c in "0123456789" || c == '_')
  {
    Lower(first);
    Digit(first);
    Lower(c);
    Digit(c);
    var s := [first] + Many(c, n);
    assert s[0] == first && forall i :: 0 < i < |s| ==> s[i] == c;
    assert n > 0 ==> s[1] == c;
  }

  /** UTF-8 spends one byte up to U+007F, two up to U+07FF, three up to U+FFFF, else four. */
  lemma {:induction false} ByteLengthIs(c: char, n: nat)
    ensures ByteLength(Many(c, n)) == n * (if c <= '\U{7F}' then 1 else if c <= '\U{7FF}' then 2 else if c <= '\U{FFFF}' then 3 else 4)
  {
    if n > 0 {
      assert Many(c, n)[1..] == Many(c, n - 1);
      ByteLengthIs(c, n - 1);
    }
  }

  lemma {:induction false} ByteLengthJoined(a: string, b: string)
    ensures ByteLength(a + b) == ByteLength(a) + ByteLength(b)
  {
    if a == [] {
      assert a + b == b;
    } else {
      assert (a + b)[1..] == a[1..] + b;
      ByteLengthJoined(a[1..], b);
    }
  }
}
