/** Python's `int(word)` for base-10 ASCII text, and decimal formatting as its inverse. */
module Integers {
  import opened Text

  /** The ASCII characters that `int()` skips around a number: tab, line feed,
      vertical tab, form feed, carriage return and space. */
  predicate IsSpace(ch: char) {
    ch == ' ' || ('\t' <= ch <= '\r')
  }

  predicate AllSpace(s: string) {
    forall i :: 0 <= i < |s| ==> IsSpace(s[i])
  }

  /** `s` with its leading whitespace removed. */
  function StripLeft(s: string): (r: string)
    ensures |r| <= |s| && r == s[|s| - |r|..]
    ensures r == [] || !IsSpace(r[0])
  {
    if s != [] && IsSpace(s[0]) then StripLeft(s[1..]) else s
  }

  /** `s` with its trailing whitespace removed. */
  function StripRight(s: string): (r: string)
    ensures r <= s
    ensures r == [] || !IsSpace(r[|r| - 1])
  {
    if s != [] && IsSpace(s[|s| - 1]) then StripRight(s[..|s| - 1]) else s
  }

  /** StripLeft removes nothing but whitespace. */
  lemma {:induction false} StripLeftRemovesSpace(s: string)
    ensures AllSpace(s[..|s| - |StripLeft(s)|])
  {
    if s != [] && IsSpace(s[0]) {
      StripLeftRemovesSpace(s[1..]);
      var n := |s| - |StripLeft(s)|;
      assert s[..n] == [s[0]] + s[1..][..n - 1];
    }
  }

  /** StripRight removes nothing but whitespace. */
  lemma {:induction false} StripRightRemovesSpace(s: string)
    ensures AllSpace(s[|StripRight(s)|..])
  {
    if s != [] && IsSpace(s[|s| - 1]) {
      StripRightRemovesSpace(s[..|s| - 1]);
      var n := |StripRight(s)|;
      assert s[n..] == s[..|s| - 1][n..] + [s[|s| - 1]];
    }
  }

  /** Python's `s.strip()` restricted to ASCII whitespace: what is left starts
      and ends with a non-space. */
  function Strip(s: string): (r: string)
    ensures r == [] || (!IsSpace(r[0]) && !IsSpace(r[|r| - 1]))
  {
    StripLeft(StripRight(s))
  }

  predicate IsDigit(ch: char) {
    '0' <= ch <= '9'
  }

  predicate AllDigits(s: string) {
    forall i :: 0 <= i < |s| ==> IsDigit(s[i])
  }

  /** The value of a run of decimal digits, most significant first. */
  function DigitsValue(s: string): (v: nat)
    requires AllDigits(s)
    ensures s != [] && s[0] != '0' ==> v > 0
  {
    if s == [] then 0
    else
      assert IsDigit(s[|s| - 1]);
      10 * DigitsValue(s[..|s| - 1]) + (s[|s| - 1] as int - '0' as int)
  }

  /** Python's `int(word)`: surrounding whitespace, then an optional sign,
      then one or more ASCII digits. None stands for the ValueError. */
  function ParseInt(word: string): (r: Option<int>)
    ensures r.Some? <==> SignedDigits(Strip(word))
    ensures r.Some? && r.value < 0 ==> Strip(word)[0] == '-'
  {
    ParseSigned(Strip(word))
  }

  /** Whether `t` is an optional sign followed by one or more ASCII digits. */
  predicate SignedDigits(t: string) {
    |t| >= 1 && AllDigits(t[1..]) && (IsDigit(t[0]) || (|t| >= 2 && (t[0] == '+' || t[0] == '-')))
  }

  /** An optional sign followed by one or more ASCII digits, and nothing else. */
  function ParseSigned(t: string): (r: Option<int>)
    ensures r.Some? <==> SignedDigits(t)
    ensures r.Some? && r.value < 0 ==> t[0] == '-'
  {
    if t == [] then None
    else if t[0] == '+' || t[0] == '-' then
      if |t| >= 2 && AllDigits(t[1..]) then
        var magnitude: int := DigitsValue(t[1..]);
        Some(if t[0] == '-' then -magnitude else magnitude)
      else None
    else if AllDigits(t) then Some(DigitsValue(t))
    else None
  }

  function DigitChar(d: nat): (ch: char)
    requires d < 10
    ensures IsDigit(ch) && ch as int - '0' as int == d
  {
    ('0' as int + d) as char
  }

  /** The decimal digits of `n`, most significant first, without leading zeros. */
  function NatToDigits(n: nat): (s: string)
    ensures |s| >= 1 && AllDigits(s)
  {
    if n < 10 then [DigitChar(n)] else NatToDigits(n / 10) + [DigitChar(n % 10)]
  }

  /** Python's `str(n)` for an integer. */
  function IntToString(n: int): (s: string)
    ensures |s| >= 1
  {
    if n < 0 then "-" + NatToDigits(-n) else NatToDigits(n)
  }

  lemma {:induction false} DigitsRoundTrip(n: nat)
    ensures DigitsValue(NatToDigits(n)) == n
  {
    if n >= 10 {
      DigitsRoundTrip(n / 10);
      var s := NatToDigits(n);
      assert s[..|s| - 1] == NatToDigits(n / 10);
    }
  }

  /** Text that starts and ends with a non-space is its own strip. */
  lemma StripUnchanged(s: string)
    requires s != [] && !IsSpace(s[0]) && !IsSpace(s[|s| - 1])
    ensures Strip(s) == s
  {
    assert StripRight(s) == s;
  }

  /** `int(str(n)) == n`: every integer the source could be asked for parses back. */
  lemma {:induction false} ParseIntRoundTrip(n: int)
    ensures ParseInt(IntToString(n)) == Some(n)
  {
    var s := IntToString(n);
    if n < 0 {
      var digits := NatToDigits(-n);
      assert s == ['-'] + digits;
      assert IsDigit(digits[|digits| - 1]);
      StripUnchanged(s);
      assert s[1..] == digits;
      DigitsRoundTrip(-n);
    } else {
      assert IsDigit(s[0]) && IsDigit(s[|s| - 1]);
      StripUnchanged(s);
      DigitsRoundTrip(n);
    }
  }

  /** A plain run of digits parses as its value. */
  lemma ParseDigits(digits: string)
    requires digits != [] && AllDigits(digits)
    ensures ParseInt(digits) == Some(DigitsValue(digits))
  {
    assert IsDigit(digits[0]) && IsDigit(digits[|digits| - 1]);
    StripUnchanged(digits);
  }

  /** Trailing whitespace is stripped away before the digits are read. */
  lemma {:induction false} StripRightPadding(word: string, pad: string)
    requires AllSpace(pad)
    ensures StripRight(word + pad) == StripRight(word)
  {
    if pad == [] {
      assert word + pad == word;
    } else {
      var shorter := pad[..|pad| - 1];
      assert (word + pad)[..|word + pad| - 1] == word + shorter;
      StripRightPadding(word, shorter);
    }
  }

  /** A word followed by whitespace (such as the newline the transcript ends
      with) parses exactly as the word alone. */
  lemma {:induction false} TrailingSpaceIgnored(word: string, pad: string)
    requires AllSpace(pad)
    ensures ParseInt(word + pad) == ParseInt(word)
  {
    StripRightPadding(word, pad);
    assert Strip(word + pad) == Strip(word);
  }

  /** A word holding anything besides whitespace, one leading sign and digits does not parse. */
  lemma {:induction false} ParseIntRejects(word: string, i: nat)
    requires i < |word|
    requires !IsSpace(word[i]) && !IsDigit(word[i]) && word[i] != '+' && word[i] != '-'
    ensures ParseInt(word) == None
  {
    var right := StripRight(word);
    var t := Strip(word);
    var lead := |right| - |t|;
    StripRightRemovesSpace(word);
    StripLeftRemovesSpace(right);

    assert t[i - lead] == word[i];
  }
}
