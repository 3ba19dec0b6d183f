/** What any line of the app-config file says, by its characters: white space, numbers, app tokens and policies. */
module LineTheorems {
  import opened Domain
  import opened Text
  import opened AppConfig

  /** The white space of Unicode, by its code points. */
  predicate White(c: char) {
    c as int in {
      9, 10, 11, 12, 13, 0x20, 0x85, 0xA0, 0x1680, 0x2000, 0x2001, 0x2002, 0x2003, 0x2004, 0x2005, 0x2006, 0x2007,
      0x2008, 0x2009, 0x200A, 0x2028, 0x2029, 0x202F, 0x205F, 0x3000}
  }

  predicate AllWhite(s: string) { forall i :: 0 <= i < |s| ==> White(s[i]) }

  predicate NoWhite(s: string) { s != "" && forall i :: 0 <= i < |s| ==> !White(s[i]) }

  predicate Breaks(s: string) { s == "" || White(s[0]) }

  lemma SpaceIsWhite(c: char)
    ensures IsSpace(c) <==> White(c)
  {
  }

  /** A word at the start of what is left of a line, after any white space. */
  lemma {:induction false} WordIsNext(lead: string, word: string, rest: string)
    requires AllWhite(lead) && NoWhite(word) && Breaks(rest)
    ensures Words(lead + (word + rest)) == [word] + Words(rest)
  {
    var s := lead + (word + rest);
    if lead == "" {
      assert s == word + rest;
      forall c: char ensures IsSpace(c) <==> White(c) { SpaceIsWhite(c); }
      WordThenRest(word, rest);
    } else {
      assert s[1..] == lead[1..] + (word + rest);
      SpaceIsWhite(s[0]);
      WordIsNext(lead[1..], word, rest);
    }
  }

  // ---- Numbers

  /** A numeral: zeros, and the decimal digits of the number. */
  function Numeral(zeros: nat, n: nat): string { Zeros(zeros) + Decimal(n) }

  lemma NumeralIsRead(zeros: nat, n: nat)
    ensures AllDigits(Numeral(zeros, n)) && ParseNat(Numeral(zeros, n)) == Some(n)
  {
    DecimalValue(n);
    LeadingZeros(zeros, Decimal(n));
  }

  /** Every text of digits is such a numeral. */
  lemma {:induction false} DigitsAreNumeral(s: string) returns (zeros: nat)
    requires s != "" && AllDigits(s)
    ensures s == Numeral(zeros, ValueOf(s))
  {
    var n := |s| - 1;
    assert s == s[..n] + [s[n]];
    if n == 0 {
      zeros := 0;
      assert ValueOf(s) == s[0] as int - '0' as int && Decimal(ValueOf(s)) == s;
    } else {
      zeros := DigitsAreNumeral(s[..n]);
      var m := ValueOf(s[..n]);
      assert ValueOf(s) == 10 * m + (s[n] as int - '0' as int);
      if m == 0 {
        assert Decimal(m) == ['0'] && Decimal(ValueOf(s)) == [s[n]];
        assert Zeros(zeros + 1) == Zeros(zeros) + ['0'];
        zeros := zeros + 1;
      } else {
        assert Decimal(ValueOf(s)) == Decimal(m) + [s[n]];
      }
    }
  }

  lemma {:induction false} SignedDigits(sign: string, d: string, n: nat)
    requires sign in {"", "+", "-"} && d != "" && AllDigits(d) && ValueOf(d) == n
    ensures ParseI32(sign + d) == if sign == "-" then (if n <= 0x8000_0000 then Some(0 - n) else None)
                                  else if n <= 0x7FFF_FFFF then Some(n) else None
    ensures ParseU32(sign + d) == if sign != "-" && n <= 0xFFFF_FFFF then Some(n) else None
  {
    var s := sign + d;
    assert IsDigit(d[0]);
    if sign == "" {
      assert s == d;
    } else {
      assert s[0] == sign[0] && s[1..] == d;
      assert sign == "-" ==> !IsDigit(s[0]);
    }
  }

  /** A signed numeral means its number, if that is in range. */
  lemma SignedNumeralMeans(sign: string, zeros: nat, n: nat)
    requires sign in {"", "+", "-"}
    ensures var s, value := sign + Numeral(zeros, n), if sign == "-" then 0 - n else n;
            && ParseI32(s) == (if -0x8000_0000 <= value <= 0x7FFF_FFFF then Some(value) else None)
            && ParseU32(s) == (if sign != "-" && n <= 0xFFFF_FFFF then Some(n) else None)
  {
    NumeralIsRead(zeros, n);
    SignedDigits(sign, Numeral(zeros, n), n);
  }

  // ---- App tokens

  predicate IsPlus(sign: string, zeros: nat, s: string, n: u32) {
    (sign == "" || sign == "+") && s == sign + Numeral(zeros, n)
  }

  /** The text is a numeral of `n`, perhaps with a plus sign. */
  ghost predicate Reads(s: string, n: u32) { exists sign: string, zeros: nat :: IsPlus(sign, zeros, s, n) }

  lemma ReadsMeans(s: string, n: u32)
    ensures ParseU32(s) == Some(n) <==> Reads(s, n)
  {
    if ParseU32(s) == Some(n) { NumberReads(s, n); }
    if Reads(s, n) {
      var sign: string, zeros: nat :| IsPlus(sign, zeros, s, n);
      SignedNumeralMeans(sign, zeros, n);
    }
  }

  lemma NumberReads(s: string, n: u32)
    requires ParseU32(s) == Some(n)
    ensures Reads(s, n)
  {
    var sign, digits := if s[0] == '+' then "+" else "", if s[0] == '+' then s[1..] else s;
    assert s == sign + digits;
    var zeros := DigitsAreNumeral(digits);
    assert IsPlus(sign, zeros, s, n);
  }

  ghost predicate IsTwice(t: string, a: string, b: string, n: u32) {
    t == a + ("uid" + b) && AllDigits(a) && Reads(a, n) && Reads(b, n)
  }

  /** The UID is written twice, around the word "uid", the first time in plain digits. */
  ghost predicate WrittenTwice(t: string, n: u32) { exists a: string, b: string :: IsTwice(t, a, b, n) }

  /** A token names a UID by itself exactly if it is its number, or its number twice. */
  lemma NumericTokenMeans(t: string, n: u32)
    ensures NumericToken(t) == Some(n) <==> Reads(t, n) || WrittenTwice(t, n)
  {
    ReadsMeans(t, n);
    if WrittenTwice(t, n) { TwiceIsRead(t, n); }
    if ParseU32(t).None? && NumericToken(t) == Some(n) { ReadTwice(t, n); }
  }

  lemma TwiceIsRead(t: string, n: u32)
    requires WrittenTwice(t, n)
    ensures NumericToken(t) == Some(n)
  {
    var a: string, b: string :| IsTwice(t, a, b, n);
    ReadsMeans(a, n);
    ReadsMeans(b, n);
    UidAfterDigits(a, b);
    assert t[..|a|] == a && t[|a| + 3..] == b;
    NotANumber(t, |a|);
  }

  /** A text with another letter than a digit inside is no number. */
  lemma NotANumber(t: string, k: nat)
    requires 0 < k < |t| && !IsDigit(t[k])
    ensures ParseU32(t).None?
  {
    assert t[1..][k - 1] == t[k];
  }

  lemma ReadTwice(t: string, n: u32)
    requires ParseU32(t).None? && NumericToken(t) == Some(n)
    ensures WrittenTwice(t, n)
  {
    var k := UidAt(t);
    UidStands(t);
    ThreeParts(t, k);
    PartsAreTwice(t, t[..k], t[k + 3..], n);
  }

  lemma PartsAreTwice(t: string, a: string, b: string, n: u32)
    requires t == a + ("uid" + b) && AllDigits(a) && ParseU32(a) == Some(n) && ParseU32(b) == Some(n)
    ensures WrittenTwice(t, n)
  {
    ReadsMeans(a, n);
    ReadsMeans(b, n);
    assert IsTwice(t, a, b, n);
  }

  lemma ThreeParts(t: string, k: nat)
    requires k + 3 <= |t| && t[k..k + 3] == "uid"
    ensures t == t[..k] + ("uid" + t[k + 3..])
  {
  }

  lemma {:induction false} UidStands(t: string)
    requires UidAt(t) < |t|
    ensures t[UidAt(t)..UidAt(t) + 3] == "uid"
  {
    if t[..3] != "uid" { UidStands(t[1..]); }
  }

  // ---- Policy lines

  /** The text goes on with the word "0". */
  ghost predicate ZeroIsNext(rest: string) {
    exists gap: string, tail: string :: AllWhite(gap) && Breaks(tail) && rest == gap + ("0" + tail)
  }

  lemma {:induction false} WordsNext(s: string) returns (gap: string, tail: string)
    requires Words(s) != []
    ensures AllWhite(gap) && Breaks(tail) && s == gap + (Words(s)[0] + tail)
  {
    SpaceIsWhite(s[0]);
    if IsSpace(s[0]) {
      gap, tail := WordsNext(s[1..]);
      gap := [s[0]] + gap;
    } else {
      var n := WordLength(s);
      gap, tail := "", s[n..];
      if n < |s| { SpaceIsWhite(s[n]); }
    }
  }

  lemma {:induction false} ZeroMeans(rest: string)
    ensures Words(rest) != [] && Words(rest)[0] == "0" <==> ZeroIsNext(rest)
  {
    if Words(rest) != [] && Words(rest)[0] == "0" {
      var gap, tail := WordsNext(rest);
    }
    if ZeroIsNext(rest) {
      var gap: string, tail: string :| AllWhite(gap) && Breaks(tail) && rest == gap + ("0" + tail);
      WordIsNext(gap, "0", tail);
    }
  }

  lemma NumberHasNoWhite(sign: string, digits: string)
    requires sign in {"", "+", "-"} && digits != ""
    ensures AllDigits(digits) ==> NoWhite(sign + digits)
  {
  }

  /**
    A line of a token, a signed number and anything else is the policy with that token and mode, permissive unless the
    next word is "0", exactly if the token does not start with a number sign and the mode is in range.
   */
  lemma PolicyLineMeans(lead: string, token: string, gap: string, sign: string, zeros: nat, n: nat, rest: string)
    requires AllWhite(lead) && NoWhite(token) && gap != "" && AllWhite(gap) && sign in {"", "+", "-"} && Breaks(rest)
    ensures var mode := if sign == "-" then 0 - n else n;
            ParseLine(lead + (token + (gap + ((sign + Numeral(zeros, n)) + rest))))
            == if token[0] != '#' && -0x8000_0000 <= mode <= 0x7FFF_FFFF
               then Some(Policy(token, mode, !ZeroIsNext(rest))) else None
  {
    var number := sign + Numeral(zeros, n);
    NumberHasNoWhite(sign, Numeral(zeros, n));
    NumeralIsRead(zeros, n);
    WordIsNext(lead, token, gap + (number + rest));
    WordIsNext(gap, number, rest);
    SignedNumeralMeans(sign, zeros, n);
    ZeroMeans(rest);
  }

  /** A line without a second word, or whose second word is not a number in range, says nothing. */
  lemma {:induction false} OtherLinesAreSkipped(lead: string, token: string, rest: string)
    requires AllWhite(lead) && NoWhite(token) && Breaks(rest)
    requires Words(rest) == [] || ParseI32(Words(rest)[0]).None?
    ensures ParseLine(lead + (token + rest)) == None && ParseLine(lead) == None
  {
    WordIsNext(lead, token, rest);
    WhiteHasNoWords(lead);
  }

  lemma {:induction false} WhiteHasNoWords(s: string)
    requires AllWhite(s)
    ensures Words(s) == []
  {
    if s == "" {
    } else {
      SpaceIsWhite(s[0]);
      WhiteHasNoWords(s[1..]);
    }
  }
}
