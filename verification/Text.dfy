/** Text as the config codecs see it: decimal numbers, whitespace-separated words, and lines with their endings. */
module Text {
  import opened Domain

  type u32 = n: nat | n <= 0xFFFF_FFFF
  type i32 = n: int | -0x8000_0000 <= n <= 0x7FFF_FFFF

  const U32_MAX: u32 := 0xFFFF_FFFF

  // ---- Decimal numbers

  predicate IsDigit(c: char) { '0' <= c <= '9' }

  predicate AllDigits(s: string) { forall i :: 0 <= i < |s| ==> IsDigit(s[i]) }

  function DigitOf(n: nat): char
    requires n < 10
  {
    ('0' as int + n) as char
  }

  function Decimal(n: nat): (s: string)
    ensures s != [] && AllDigits(s)
  {
    if n < 10 then [DigitOf(n)] else Decimal(n / 10) + [DigitOf(n % 10)]
  }

  /** Padded with zeros to at least five digits. */
  function Decimal5(n: nat): (s: string)
    ensures s != [] && AllDigits(s)
  {
    var s := Decimal(n);
    if |s| < 5 then Zeros(5 - |s|) + s else s
  }

  function Zeros(n: nat): string { seq(n, _ => '0') }

  function ValueOf(s: string): nat
    requires AllDigits(s)
  {
    if s == [] then 0 else 10 * ValueOf(s[..|s| - 1]) + (s[|s| - 1] as int - '0' as int)
  }

  function ParseNat(s: string): Option<nat> {
    if s != [] && AllDigits(s) then Some(ValueOf(s)) else None
  }

  /** Rust's `parse::<u32>`: an optional plus sign, then digits, then the range. */
  function ParseU32(s: string): Option<u32> {
    var n := ParseNat(if s != [] && s[0] == '+' then s[1..] else s);
    if n.Some? && n.value <= U32_MAX then Some(n.value) else None
  }

  function ParseI32(s: string): Option<i32> {
    if s != [] && s[0] == '-' then
      var n := ParseNat(s[1..]); if n.Some? && n.value <= 0x8000_0000 then Some(0 - n.value) else None
    else
      var n := ParseNat(if s != [] && s[0] == '+' then s[1..] else s);
      if n.Some? && n.value <= 0x7FFF_FFFF then Some(n.value) else None
  }

  function PrintI32(n: i32): string { if n < 0 then "-" + Decimal(0 - n) else Decimal(n) }

  lemma {:induction false} DecimalValue(n: nat)
    ensures ValueOf(Decimal(n)) == n
  {
    if n >= 10 {
      DecimalValue(n / 10);
      assert Decimal(n)[..|Decimal(n)| - 1] == Decimal(n / 10);
    }
  }

  lemma {:induction false} LeadingZeros(k: nat, s: string)
    requires AllDigits(s)
    ensures AllDigits(Zeros(k) + s) && ValueOf(Zeros(k) + s) == ValueOf(s)
  {
    if s != [] {
      LeadingZeros(k, s[..|s| - 1]);
      assert (Zeros(k) + s)[..|Zeros(k) + s| - 1] == Zeros(k) + s[..|s| - 1];
    } else if k > 0 {
      LeadingZeros(k - 1, s);
      assert (Zeros(k) + s)[..k - 1] == Zeros(k - 1) + s;
    }
  }

  lemma Decimal5Value(n: nat)
    ensures ValueOf(Decimal5(n)) == n
  {
    DecimalValue(n);
    if |Decimal(n)| < 5 { LeadingZeros(5 - |Decimal(n)|, Decimal(n)); }
  }

  lemma {:induction false} DigitsParse(s: string)
    requires s != [] && AllDigits(s) && ValueOf(s) <= U32_MAX
    ensures ParseU32(s) == Some(ValueOf(s))
  {
    assert IsDigit(s[0]) && s[0] != '+';
  }

  lemma {:induction false} PrintedU32(m: u32)
    ensures ParseU32(Decimal(m)) == Some(m) && ParseU32(Decimal5(m)) == Some(m)
  {
    DecimalValue(m);
    Decimal5Value(m);
    DigitsParse(Decimal(m));
    DigitsParse(Decimal5(m));
  }

  lemma {:induction false} PrintedNat(n: nat)
    requires n <= 0x7FFF_FFFF
    ensures ParseI32(Decimal(n)) == Some(n)
  {
    var s := Decimal(n);
    DecimalValue(n);
    assert IsDigit(s[0]) && s[0] != '-' && s[0] != '+';
  }

  lemma {:induction false} PrintedNegative(n: nat)
    requires 0 < n <= 0x8000_0000
    ensures ParseI32("-" + Decimal(n)) == Some(0 - n)
  {
    var s := "-" + Decimal(n);
    DecimalValue(n);
    assert s[1..] == Decimal(n) && s[0] == '-';
  }

  lemma PrintedI32(n: i32)
    ensures ParseI32(PrintI32(n)) == Some(n)
  {
    if n < 0 { PrintedNegative(0 - n); } else { PrintedNat(n); }
  }

  // ---- Words

  predicate IsSpace(c: char) {
    || '\t' <= c <= '\r' || c == ' ' || c as int == 0x85 || c as int == 0xA0 || c as int == 0x1680
    || 0x2000 <= c as int <= 0x200A || c as int == 0x2028 || c as int == 0x2029 || c as int == 0x202F
    || c as int == 0x205F || c as int == 0x3000
  }

  predicate IsWord(w: string) { w != [] && forall i :: 0 <= i < |w| ==> !IsSpace(w[i]) }

  predicate Blank(s: string) { forall i :: 0 <= i < |s| ==> IsSpace(s[i]) }

  /** The length of the longest prefix without whitespace. */
  function WordLength(s: string): (n: nat)
    ensures n <= |s| && (forall i :: 0 <= i < n ==> !IsSpace(s[i])) && (n < |s| ==> IsSpace(s[n]))
  {
    if s == [] || IsSpace(s[0]) then 0 else 1 + WordLength(s[1..])
  }

  function Words(s: string): (r: seq<string>)
    ensures forall i :: 0 <= i < |r| ==> IsWord(r[i])
    decreases |s|
  {
    if s == [] then []
    else if IsSpace(s[0]) then Words(s[1..])
    else var n := WordLength(s); [s[..n]] + Words(s[n..])
  }

  lemma {:induction false} BlankHasNoWords(s: string)
    requires Blank(s)
    ensures Words(s) == []
  {
    if s == [] {
    } else {
      BlankHasNoWords(s[1..]);
    }
  }

  lemma {:induction false} WordLengthIs(s: string, n: nat)
    requires n <= |s| && (forall i :: 0 <= i < n ==> !IsSpace(s[i])) && (n < |s| ==> IsSpace(s[n]))
    ensures WordLength(s) == n
  {
    if n == 0 {
    } else {
      WordLengthIs(s[1..], n - 1);
    }
  }

  lemma {:induction false} WordThenRest(w: string, rest: string)
    requires IsWord(w) && (rest == [] || IsSpace(rest[0]))
    ensures Words(w + rest) == [w] + Words(rest)
  {
    var s := w + rest;
    WordLengthIs(s, |w|);
    assert s[..|w|] == w && s[|w|..] == rest;
  }

  lemma {:induction false} WordAndSpace(w: string, rest: string)
    requires IsWord(w)
    ensures Words(w + " " + rest) == [w] + Words(rest)
  {
    WordThenRest(w, " " + rest);
    assert (" " + rest)[1..] == rest;
    assert w + " " + rest == w + (" " + rest);
  }

  lemma {:induction false} WordsOfThree(a: string, b: string, c: string, ending: string)
    requires IsWord(a) && IsWord(b) && IsWord(c) && Blank(ending)
    ensures Words(a + " " + (b + " " + (c + ending))) == [a, b, c]
  {
    BlankHasNoWords(ending);
    WordThenRest(c, ending);
    WordAndSpace(b, c + ending);
    WordAndSpace(a, b + " " + (c + ending));
  }

  /** Whitespace at the end of a line adds no words. */
  lemma {:induction false} TrailingSpace(s: string, ending: string)
    requires Blank(ending)
    ensures Words(s + ending) == Words(s)
    decreases |s|
  {
    if s == [] {
      BlankHasNoWords(ending);
      assert s + ending == ending;
    } else if IsSpace(s[0]) {
      TrailingSpace(s[1..], ending);
      assert (s + ending)[1..] == s[1..] + ending;
    } else {
      var n := WordLength(s);
      var w, rest := s[..n], s[n..];
      TrailingSpace(rest, ending);
      assert s + ending == w + (rest + ending);
      WordThenRest(w, rest + ending);
    }
  }

  // ---- Lines that keep their endings

  /** `split_inclusive('\n')`. */
  function Pieces(s: string): seq<string>
    decreases |s|
  {
    if s == [] then []
    else var n := LineLength(s); [s[..n]] + Pieces(s[n..])
  }

  function LineLength(s: string): (n: nat)
    requires s != []
    ensures 0 < n <= |s| && (forall i :: 0 <= i < n - 1 ==> s[i] != '\n') && (n < |s| ==> s[n - 1] == '\n')
  {
    if s[0] == '\n' || |s| == 1 then 1 else 1 + LineLength(s[1..])
  }

  predicate Terminated(p: string) { p != [] && p[|p| - 1] == '\n' }

  predicate IsPiece(p: string) { p != [] && forall i :: 0 <= i < |p| - 1 ==> p[i] != '\n' }

  /** Only the last piece may lack its newline. */
  predicate ArePieces(ps: seq<string>) {
    && (forall i :: 0 <= i < |ps| ==> IsPiece(ps[i]))
    && (forall i :: 0 <= i < |ps| - 1 ==> Terminated(ps[i]))
  }

  predicate Open(s: string) { s != [] && s[|s| - 1] != '\n' }

  function Joined(ps: seq<string>): string {
    if ps == [] then [] else ps[0] + Joined(ps[1..])
  }

  lemma {:induction false} JoinedConcat(a: seq<string>, b: seq<string>)
    ensures Joined(a + b) == Joined(a) + Joined(b)
  {
    if a == [] {
      assert a + b == b;
    } else {
      assert (a + b)[1..] == a[1..] + b;
      JoinedConcat(a[1..], b);
      assert a[0] + (Joined(a[1..]) + Joined(b)) == (a[0] + Joined(a[1..])) + Joined(b);
    }
  }

  lemma {:induction false} PiecesJoin(s: string)
    ensures Joined(Pieces(s)) == s && (s != [] ==> Pieces(s) != [])
    decreases |s|
  {
    if s == [] {
    } else {
      var n := LineLength(s);
      PiecesJoin(s[n..]);
      assert s == s[..n] + s[n..] && Pieces(s)[1..] == Pieces(s[n..]);
    }
  }

  lemma {:induction false} PiecesArePieces(s: string)
    ensures ArePieces(Pieces(s))
    ensures s != [] ==> Pieces(s) != [] && s[|s| - 1] == Last(Pieces(s)[|Pieces(s)| - 1])
    decreases |s|
  {
    if s == [] {
    } else {
      var n := LineLength(s);
      var rest := Pieces(s[n..]);
      PiecesArePieces(s[n..]);
      assert Pieces(s) == [s[..n]] + rest;
      assert n < |s| ==> rest != [] && Terminated(s[..n]);
      assert IsPiece(s[..n]);
    }
  }

  function Last(p: string): char { if p == [] then '\0' else p[|p| - 1] }

  lemma {:induction false} LineLengthIs(s: string, n: nat)
    requires 0 < n <= |s| && (forall i :: 0 <= i < n - 1 ==> s[i] != '\n') && (n < |s| ==> s[n - 1] == '\n')
    ensures LineLength(s) == n
  {
    if n > 1 { LineLengthIs(s[1..], n - 1); }
  }

  /** Pieces put together are taken apart again the same way. */
  lemma {:induction false} SplitOfJoined(ps: seq<string>)
    requires ArePieces(ps)
    ensures Pieces(Joined(ps)) == ps
  {
    if ps == [] {
    } else {
      SplitOfJoined(ps[1..]);
      var s, p := Joined(ps), ps[0];
      assert s == p + Joined(ps[1..]);
      assert |ps| == 1 ==> Joined(ps[1..]) == [];
      LineLengthIs(s, |p|);
      assert s[..|p|] == p && s[|p|..] == Joined(ps[1..]);
    }
  }
}
