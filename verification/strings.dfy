/** The few string operations the extractor relies on: decimal digits, Python's
    `str.strip`, `str.replace(c, '')`, and the `$<digits>.<2 digits>` money
    tokens captured from the grand-totals table. */
module Strings {
  import opened Wrappers

  predicate IsDigit(c: char) {
    '0' <= c <= '9'
  }

  predicate AllDigits(s: string) {
    forall i | 0 <= i < |s| :: IsDigit(s[i])
  }

  function DigitValue(c: char): (d: nat)
    requires IsDigit(c)
    ensures d < 10
  {
    c as int - '0' as int
  }

  function DigitChar(d: nat): (c: char)
    requires d < 10
    ensures IsDigit(c) && DigitValue(c) == d
  {
    ('0' as int + d) as char
  }

  /** The number a string of decimal digits denotes, most significant digit
      first; the empty string denotes 0. */
  function ValueOf(s: string): nat
    requires AllDigits(s)
    decreases |s|
  {
    if s == [] then 0 else 10 * ValueOf(s[..|s| - 1]) + DigitValue(s[|s| - 1])
  }

  /** A digit string denotes zero exactly when every digit is '0'. */
  predicate AllZeros(s: string) {
    forall i | 0 <= i < |s| :: s[i] == '0'
  }

  lemma {:induction false} ValueOfZero(s: string)
    requires AllDigits(s)
    ensures ValueOf(s) == 0 <==> AllZeros(s)
    decreases |s|
  {
    if s != [] {
      var init := s[..|s| - 1];
      ValueOfZero(init);
      forall i | 0 <= i < |init|
        ensures init[i] == s[i]
      {
      }
      assert AllZeros(s) <==> AllZeros(init) && s[|s| - 1] == '0';
    }
  }

  /** Python's `str(n)` for a non-negative integer: no sign, no leading zero. */
  function Decimal(n: nat): (s: string)
    ensures |s| >= 1 && AllDigits(s)
    ensures s[0] == '0' ==> n == 0 && s == "0"
    decreases n
  {
    if n < 10 then [DigitChar(n)] else Decimal(n / 10) + [DigitChar(n % 10)]
  }

  /** Reading back a rendered number gives the number. */
  lemma {:induction false} DecimalRoundTrip(n: nat)
    ensures ValueOf(Decimal(n)) == n
    decreases n
  {
    if n < 10 {
      assert Decimal(n)[..0] == [];
    } else {
      var s := Decimal(n);
      assert s[..|s| - 1] == Decimal(n / 10);
      DecimalRoundTrip(n / 10);
    }
  }

  /** Position of the first occurrence of `c`, if any. */
  function IndexOf(s: string, c: char): (r: Option<nat>)
    ensures r.None? <==> c !in s
    ensures r.Some? ==> r.value < |s| && s[r.value] == c && c !in s[..r.value]
    decreases |s|
  {
    if s == [] then None
    else if s[0] == c then Some(0)
    else
      var r := IndexOf(s[1..], c);
      if r.None? then None
      else
        assert s[..r.value + 1] == [s[0]] + s[1..][..r.value];
        Some(r.value + 1)
  }

  /** The first `c` in `a + [c] + b` is the one after `a` when `a` has none. */
  lemma {:induction false} IndexOfAfter(a: string, c: char, b: string)
    requires c !in a
    ensures IndexOf(a + [c] + b, c) == Some(|a|)
    decreases |a|
  {
    var s := a + [c] + b;
    if a != [] {
      assert s[0] == a[0] && s[1..] == a[1..] + [c] + b;
      IndexOfAfter(a[1..], c, b);
    }
  }

  /** The characters Python's `str.isspace` accepts, which `str.strip()`
      with no argument removes. */
  const Whitespace: set<char> := {
    '\t', '\n', '\U{B}', '\U{C}', '\r', '\U{1C}', '\U{1D}', '\U{1E}', '\U{1F}', ' ',
    '\U{85}', '\U{A0}', '\U{1680}', '\U{2000}', '\U{2001}', '\U{2002}', '\U{2003}',
    '\U{2004}', '\U{2005}', '\U{2006}', '\U{2007}', '\U{2008}', '\U{2009}', '\U{200A}',
    '\U{2028}', '\U{2029}', '\U{202F}', '\U{205F}', '\U{3000}'
  }

  /** Drops the leading characters that belong to `chars`. */
  function StripLeft(s: string, chars: set<char>): (r: string)
    ensures |r| <= |s| && r == s[|s| - |r|..]
    ensures r != [] ==> r[0] !in chars
    ensures forall i | 0 <= i < |s| - |r| :: s[i] in chars
    decreases |s|
  {
    if s != [] && s[0] in chars then StripLeft(s[1..], chars) else s
  }

  /** Drops the trailing characters that belong to `chars`. */
  function StripRight(s: string, chars: set<char>): (r: string)
    ensures |r| <= |s| && r == s[..|r|]
    ensures r != [] ==> r[|r| - 1] !in chars
    ensures forall i | |r| <= i < |s| :: s[i] in chars
    decreases |s|
  {
    if s != [] && s[|s| - 1] in chars then StripRight(s[..|s| - 1], chars) else s
  }

  /** Python's `s.strip(chars)`: trims both ends, never the middle. */
  function Strip(s: string, chars: set<char>): (r: string)
    ensures |r| <= |s|
    ensures r != [] ==> r[0] !in chars && r[|r| - 1] !in chars
    ensures (s == [] || (s[0] !in chars && s[|s| - 1] !in chars)) ==> r == s
  {
    StripRight(StripLeft(s, chars), chars)
  }

  /** `r` is the piece of `s` starting at `i`, and every character of `s`
      before or after that piece belongs to `chars`. */
  predicate TrimmedAt(s: string, chars: set<char>, r: string, i: int) {
    && 0 <= i <= |s| - |r|
    && r == s[i..i + |r|]
    && (forall k | 0 <= k < i :: s[k] in chars)
    && (forall k | i + |r| <= k < |s| :: s[k] in chars)
  }

  /** What `strip` returns is the piece of `s` left after removing a run of
      `chars` from each end. */
  lemma StripSlice(s: string, chars: set<char>)
    ensures exists i :: TrimmedAt(s, chars, Strip(s, chars), i)
  {
    var l := StripLeft(s, chars);
    var r := StripRight(l, chars);
    var i := |s| - |l|;
    assert l == s[i..];
    assert r == l[..|r|];
    assert r == s[i..i + |r|];
    forall k | i + |r| <= k < |s|
      ensures s[k] in chars
    {
      assert s[k] == l[k - i];
    }
    assert Strip(s, chars) == r;
    assert TrimmedAt(s, chars, r, i);
  }

  /** Stripping only removes characters: it never introduces one. */
  lemma StripKeeps(s: string, chars: set<char>)
    ensures multiset(Strip(s, chars)) <= multiset(s)
  {
    var l := StripLeft(s, chars);
    var r := StripRight(l, chars);
    SliceKeeps(s, |s| - |l|);
    assert l[..|r|] == r;
    PrefixKeeps(l, |r|);
  }

  lemma SliceKeeps(s: string, i: nat)
    requires i <= |s|
    ensures multiset(s[i..]) <= multiset(s)
  {
    assert s == s[..i] + s[i..];
  }

  lemma PrefixKeeps(s: string, i: nat)
    requires i <= |s|
    ensures multiset(s[..i]) <= multiset(s)
  {
    assert s == s[..i] + s[i..];
  }

  /** Python's `s.replace(c, '')`. */
  function RemoveChar(s: string, c: char): (r: string)
    decreases |s|
  {
    if s == [] then []
    else
      assert s == [s[0]] + s[1..];
      (if s[0] == c then [] else [s[0]]) + RemoveChar(s[1..], c)
  }

  /** No `c` is left, and every other character stays, as often as it
      occurred. */
  lemma {:induction false} RemoveCharCounts(s: string, c: char)
    ensures c !in RemoveChar(s, c)
    ensures multiset(RemoveChar(s, c)) == multiset(s)[c := 0]
    decreases |s|
  {
    if s != [] {
      var x, rest := s[0], s[1..];
      assert s == [x] + rest;
      RemoveCharCons(x, rest, c);
      RemoveCharCounts(rest, c);
    }
    assert multiset(RemoveChar(s, c))[c] == 0;
  }

  /** A string without `c` is left as it is. */
  lemma {:induction false} RemoveCharAbsent(s: string, c: char)
    requires c !in s
    ensures RemoveChar(s, c) == s
    decreases |s|
  {
    if s != [] {
      var x, rest := s[0], s[1..];
      assert s == [x] + rest;
      RemoveCharCons(x, rest, c);
      RemoveCharAbsent(rest, c);
    }
  }

  /** Removal works character by character: a single character is dropped
      exactly when it is `c` ... */
  lemma RemoveCharSingle(x: char, c: char)
    ensures RemoveChar([x], c) == if x == c then [] else [x]
  {
  }

  lemma RemoveCharCons(x: char, s: string, c: char)
    ensures RemoveChar([x] + s, c) == (if x == c then [] else [x]) + RemoveChar(s, c)
  {
    var t := [x] + s;
    assert t[0] == x && t[1..] == s;
  }

  /** ... and removing from a concatenation removes from each part, so the
      characters that stay keep their order. */
  lemma {:induction false} RemoveCharAppend(a: string, b: string, c: char)
    ensures RemoveChar(a + b, c) == RemoveChar(a, c) + RemoveChar(b, c)
    decreases |a|
  {
    if a == [] {
      assert a + b == b;
      assert RemoveChar(a, c) == [];
    } else {
      var x, rest := a[0], a[1..];
      var head := if x == c then [] else [x];
      assert a == [x] + rest;
      assert a + b == [x] + (rest + b);
      calc {
        RemoveChar(a + b, c);
      == { RemoveCharCons(x, rest + b, c); }
        head + RemoveChar(rest + b, c);
      == { RemoveCharAppend(rest, b, c); }
        head + (RemoveChar(rest, c) + RemoveChar(b, c));
      ==
        (head + RemoveChar(rest, c)) + RemoveChar(b, c);
      == { RemoveCharCons(x, rest, c); }
        RemoveChar(a, c) + RemoveChar(b, c);
      }
    }
  }

  /** The shape `\$\d+\.\d{2}` of the grand-totals captures. */
  predicate IsMoneyText(s: string) {
    && |s| >= 5
    && s[0] == '$'
    && s[|s| - 3] == '.'
    && AllDigits(s[1..|s| - 3])
    && AllDigits(s[|s| - 2..])
  }

  type MoneyText = s: string | IsMoneyText(s) witness "$0.00"

  /** `strip('$')` of a money token removes exactly its leading dollar sign. */
  lemma StripDollar(tok: MoneyText)
    ensures Strip(tok, {'$'}) == tok[1..]
  {
    var rest := tok[1..];
    assert rest[0] == tok[1..|tok| - 3][0] && IsDigit(rest[0]);
    assert rest[|rest| - 1] == tok[|tok| - 2..][1] && IsDigit(rest[|rest| - 1]);
    assert StripLeft(rest, {'$'}) == rest;
    assert StripLeft(tok, {'$'}) == rest;
    assert StripRight(rest, {'$'}) == rest;
  }

  /** `float(tok.strip('$'))` in hundredths: the amount a token denotes, in cents. */
  function Cents(tok: MoneyText): nat {
    var body := Strip(tok, {'$'});
    StripDollar(tok);
    var whole := body[..|body| - 3];
    var frac := body[|body| - 2..];
    assert whole == tok[1..|tok| - 3] && frac == tok[|tok| - 2..];
    ValueOf(whole) * 100 + ValueOf(frac)
  }

  /** The canonical token for an amount of cents: no leading zeros in the
      dollars, always two digits of cents. */
  function FormatMoney(c: nat): (tok: MoneyText)
    ensures tok[1..|tok| - 3] == Decimal(c / 100)
    ensures tok[|tok| - 2..] == [DigitChar(c % 100 / 10), DigitChar(c % 100 % 10)]
  {
    var dollars := Decimal(c / 100);
    var tok := "$" + dollars + "." + [DigitChar(c % 100 / 10), DigitChar(c % 100 % 10)];
    assert tok[1..|tok| - 3] == dollars;
    assert tok[|tok| - 2..] == [DigitChar(c % 100 / 10), DigitChar(c % 100 % 10)];
    tok
  }

  lemma TwoDigits(a: nat, b: nat)
    requires a < 10 && b < 10
    ensures ValueOf([DigitChar(a), DigitChar(b)]) == 10 * a + b
  {
    var s := [DigitChar(a), DigitChar(b)];
    assert s[..1] == [DigitChar(a)];
    assert s[..1][..0] == [];
    assert ValueOf(s[..1]) == a;
    assert ValueOf(s) == 10 * ValueOf(s[..1]) + DigitValue(s[1]);
  }

  /** A token's amount is its dollar digits times 100 plus its cent digits. */
  lemma CentsParts(tok: MoneyText)
    ensures Cents(tok) == ValueOf(tok[1..|tok| - 3]) * 100 + ValueOf(tok[|tok| - 2..])
  {
    StripDollar(tok);
    var body := tok[1..];
    assert body[..|body| - 3] == tok[1..|tok| - 3];
    assert body[|body| - 2..] == tok[|tok| - 2..];
  }

  /** Every digit of a token is '0' exactly when its dollar digits and its
      cent digits all are. */
  lemma TokenZeros(tok: MoneyText)
    ensures (forall i | 1 <= i < |tok| && i != |tok| - 3 :: tok[i] == '0') <==>
      AllZeros(tok[1..|tok| - 3]) && AllZeros(tok[|tok| - 2..])
  {
    var whole := tok[1..|tok| - 3];
    var frac := tok[|tok| - 2..];
    if AllZeros(whole) && AllZeros(frac) {
      forall i | 1 <= i < |tok| && i != |tok| - 3
        ensures tok[i] == '0'
      {
        if i < |tok| - 3 {
          assert tok[i] == whole[i - 1];
        } else {
          assert tok[i] == frac[i - (|tok| - 2)];
        }
      }
    }
    if forall i | 1 <= i < |tok| && i != |tok| - 3 :: tok[i] == '0' {
      forall i | 0 <= i < |whole|
        ensures whole[i] == '0'
      {
        assert whole[i] == tok[i + 1];
      }
      forall i | 0 <= i < |frac|
        ensures frac[i] == '0'
      {
        assert frac[i] == tok[i + |tok| - 2];
      }
    }
  }

  /** A token denotes zero exactly when every digit of it is '0', which is
      when Python's `float(...) > 0` test fails. */
  lemma CentsZero(tok: MoneyText)
    ensures Cents(tok) == 0 <==> forall i | 1 <= i < |tok| && i != |tok| - 3 :: tok[i] == '0'
  {
    CentsParts(tok);
    ValueOfZero(tok[1..|tok| - 3]);
    ValueOfZero(tok[|tok| - 2..]);
    TokenZeros(tok);
  }

  /** The dollar and cent digits of a formatted amount read back as its
      dollars and its cents. */
  lemma FormatParts(c: nat)
    ensures ValueOf(FormatMoney(c)[1..|FormatMoney(c)| - 3]) == c / 100
    ensures ValueOf(FormatMoney(c)[|FormatMoney(c)| - 2..]) == c % 100
  {
    var cents := c % 100;
    DecimalRoundTrip(c / 100);
    TwoDigits(cents / 10, cents % 10);
  }

  /** Reading a formatted amount gives back the amount. */
  lemma MoneyRoundTrip(c: nat)
    ensures Cents(FormatMoney(c)) == c
  {
    CentsParts(FormatMoney(c));
    FormatParts(c);
    assert c == c / 100 * 100 + c % 100;
  }

  /** The grand-totals default `"$0.00"` denotes zero. */
  lemma ZeroToken()
    ensures Cents("$0.00") == 0
  {
    FormatZero();
    MoneyRoundTrip(0);
  }

  /** ... and is the canonical token for zero. */
  lemma FormatZero()
    ensures FormatMoney(0) == "$0.00"
  {
    var tok := FormatMoney(0);
    assert Decimal(0) == "0";
    assert tok == tok[..1] + tok[1..|tok| - 3] + tok[|tok| - 3..|tok| - 2] + tok[|tok| - 2..];
  }
}
