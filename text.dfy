/**
 * The two string services of Python's standard library that the relay relies on:
 * `str.split()` with no separator (split on runs of whitespace) and `int(token)`
 * (a base-10 integer literal).
 */
module Text {
  import opened Wrappers

  /** The characters Python's `str.isspace` accepts, which `str.split()` splits on. */
  predicate IsSpace(c: char)
  {
    || c == ' '
    || ('\t' <= c <= '\r')
    || ('\U{1C}' <= c <= '\U{1F}')
    || c == '\U{85}' || c == '\U{A0}' || c == '\U{1680}'
    || ('\U{2000}' <= c <= '\U{200A}')
    || c == '\U{2028}' || c == '\U{2029}' || c == '\U{202F}' || c == '\U{205F}' || c == '\U{3000}'
  }

  predicate NoSpace(s: string)
  {
    forall i :: 0 <= i < |s| ==> !IsSpace(s[i])
  }

  /** Length of the run of non-space characters at the front of `s`. */
  function TokenLength(s: string): (n: nat)
    ensures n <= |s|
    ensures NoSpace(s[..n])
    ensures n == |s| || IsSpace(s[n])
  {
    if s == [] || IsSpace(s[0]) then 0 else 1 + TokenLength(s[1..])
  }

  /** `s.split()`: the maximal runs of non-space characters, left to right. */
  function Split(s: string): (r: seq<string>)
    ensures forall k :: 0 <= k < |r| ==> r[k] != [] && NoSpace(r[k])
    decreases |s|
  {
    if s == [] then []
    else if IsSpace(s[0]) then Split(s[1..])
    else
      var n := TokenLength(s);
      [s[..n]] + Split(s[n..])
  }

  /** A token ends at the first space, whatever follows that space. */
  lemma {:induction false} TokenLengthStopsAtSpace(a: string, b: string)
    requires b != [] && IsSpace(b[0])
    ensures TokenLength(a + b) == TokenLength(a)
  {
    if a != [] && !IsSpace(a[0]) {
      assert (a + b)[1..] == a[1..] + b;
      TokenLengthStopsAtSpace(a[1..], b);
    } else if a == [] {
      assert a + b == b;
    }
  }

  /** A token is at least as long as the space-free prefix it starts with. */
  lemma {:induction false} TokenLengthCoversPrefix(s: string, k: nat)
    requires k <= |s| && NoSpace(s[..k])
    ensures TokenLength(s) >= k
  {
    if k > 0 {
      assert !IsSpace(s[..k][0]);
      assert s[1..][..k - 1] == s[..k][1..];
      TokenLengthCoversPrefix(s[1..], k - 1);
    }
  }

  /** Splitting at a whitespace character splits the two sides independently. */
  lemma {:induction false} SplitAtSpace(a: string, c: char, b: string)
    requires IsSpace(c)
    ensures Split(a + [c] + b) == Split(a) + Split(b)
    decreases |a|
  {
    var s := a + [c] + b;
    if a == [] {
      assert s == [c] + b && s[1..] == b;
    } else if IsSpace(a[0]) {
      assert s[1..] == a[1..] + [c] + b;
      SplitAtSpace(a[1..], c, b);
    } else {
      assert s == a + ([c] + b);
      TokenLengthStopsAtSpace(a, [c] + b);
      var n := TokenLength(a);
      assert s[..n] == a[..n];
      assert s[n..] == a[n..] + [c] + b;
      SplitAtSpace(a[n..], c, b);
    }
  }

  /** A non-empty space-free string is a single token. */
  lemma SplitSingleToken(s: string)
    requires s != [] && NoSpace(s)
    ensures Split(s) == [s]
  {
    TokenLengthCoversPrefix(s, |s|);
    assert s[..|s|] == s;
  }

  // ---------------------------------------------------------------------------
  // int(token) for base 10

  predicate IsDigit(c: char)
  {
    '0' <= c <= '9'
  }

  /**
   * The literal shape `int()` accepts after an optional sign: a digit, then digits,
   * with single underscores allowed between two digits.
   */
  predicate IsNumeral(s: string)
  {
    && s != []
    && IsDigit(s[0])
    && forall i {:trigger s[i]} :: 0 <= i < |s| ==> IsDigit(s[i]) || (s[i] == '_' && i + 1 < |s| && IsDigit(s[i + 1]))
  }

  /** Value of a digit string read left to right, underscores skipped. */
  function DigitsValue(s: string): nat
  {
    if s == [] then 0
    else
      var c := s[|s| - 1];
      if IsDigit(c) then 10 * DigitsValue(s[..|s| - 1]) + (c as int - '0' as int)
      else DigitsValue(s[..|s| - 1])
  }

  /** `int(s)`: the integer the literal denotes, or None where Python raises ValueError. */
  function ParseInt(s: string): (r: Option<int>)
    ensures r.Some? ==> (IsNumeral(s) || (|s| > 1 && (s[0] == '+' || s[0] == '-') && IsNumeral(s[1..])))
    ensures r.Some? && r.value < 0 ==> s[0] == '-'
    ensures IsNumeral(s) ==> r == Some(DigitsValue(s) as int)
    ensures |s| > 1 && (s[0] == '+' || s[0] == '-') && IsNumeral(s[1..]) ==>
      r == Some(if s[0] == '-' then -(DigitsValue(s[1..]) as int) else DigitsValue(s[1..]) as int)
  {
    if |s| > 0 && (s[0] == '+' || s[0] == '-') then
      if IsNumeral(s[1..]) then
        var n: int := DigitsValue(s[1..]);
        Some(if s[0] == '-' then -n else n)
      else None
    else if IsNumeral(s) then Some(DigitsValue(s) as int)
    else None
  }

  /**
   * `int()` rejects an underscore that is not between two digits: a token that ends in
   * `_`, or holds two underscores in a row, raises ValueError.
   */
  lemma MisplacedUnderscoreRejected(s: string, i: nat)
    requires i < |s| && s[i] == '_'
    requires i + 1 == |s| || s[i + 1] == '_'
    ensures ParseInt(s) == None
  {
  }

  function DigitChar(d: nat): char
    requires d < 10
  {
    ('0' as int + d) as char
  }

  /** Decimal rendering of a natural number, most significant digit first. */
  function ShowNat(n: nat): (s: string)
    ensures s != [] && forall i :: 0 <= i < |s| ==> IsDigit(s[i])
  {
    if n < 10 then [DigitChar(n)] else ShowNat(n / 10) + [DigitChar(n % 10)]
  }

  /** `str(n)` for an int. */
  function ShowInt(n: int): string
  {
    if n < 0 then "-" + ShowNat(-n) else ShowNat(n)
  }

  lemma {:induction false} DigitsValueOfShowNat(n: nat)
    ensures DigitsValue(ShowNat(n)) == n
  {
    var s := ShowNat(n);
    if n >= 10 {
      assert s[..|s| - 1] == ShowNat(n / 10);
      DigitsValueOfShowNat(n / 10);
    }
  }

  lemma ShowNatIsNumeral(n: nat)
    ensures IsNumeral(ShowNat(n)) && ShowNat(n)[0] != '+' && ShowNat(n)[0] != '-'
  {
    var s := ShowNat(n);
    assert IsDigit(s[0]);
    assert forall i :: 0 <= i < |s| ==> IsDigit(s[i]);
  }

  /** A minus sign in front of a numeral negates its value. */
  lemma ParseNegative(digits: string)
    requires IsNumeral(digits)
    ensures ParseInt("-" + digits) == Some(-(DigitsValue(digits) as int))
  {
    var s := "-" + digits;
    assert s[0] == '-' && s[1..] == digits;
  }

  /** `int(str(n)) == n`: the parser reads back every rendered integer. */
  lemma ParseShowInt(n: int)
    ensures ParseInt(ShowInt(n)) == Some(n)
  {
    if n < 0 {
      var m: nat := -n;
      ShowNatIsNumeral(m);
      DigitsValueOfShowNat(m);
      ParseNegative(ShowNat(m));
      assert ShowInt(n) == "-" + ShowNat(m);
    } else {
      ShowNatIsNumeral(n);
      DigitsValueOfShowNat(n);
    }
  }
}
