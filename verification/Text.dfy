/**
 * Text as the Go code sees it: a string is a sequence of bytes, one `char` per byte.
 * White space is the ASCII white space of strings.TrimSpace and bytes.TrimSpace.
 */
module Text {

  datatype Option<+T> = None | Some(value: T)

  predicate IsSpace(c: char) {
    c == ' ' || c == '\t' || c == '\n' || c == '\U{0B}' || c == '\U{0C}' || c == '\r'
  }

  function TrimLeft(s: string): (r: string)
    ensures |r| <= |s|
  {
    if s != "" && IsSpace(s[0]) then TrimLeft(s[1..]) else s
  }

  /** Drops the trailing characters that satisfy `drop`. */
  function TrimRight(s: string, drop: char -> bool): (r: string)
    ensures r <= s
    ensures r == "" || !drop(r[|r| - 1])
  {
    if s != "" && drop(s[|s| - 1]) then TrimRight(s[..|s| - 1], drop) else s
  }

  function TrimSpace(s: string): (r: string)
    ensures r == "" || (!IsSpace(r[0]) && !IsSpace(r[|r| - 1]))
  {
    TrimLeftStops(s);
    TrimRight(TrimLeft(s), IsSpace)
  }

  lemma TrimLeftStops(s: string)
    ensures TrimLeft(s) == "" || !IsSpace(TrimLeft(s)[0])
  {
  }

  /** Text that neither starts nor ends with white space is its own trimming. */
  lemma TrimSpaceFixed(s: string)
    requires s == "" || (!IsSpace(s[0]) && !IsSpace(s[|s| - 1]))
    ensures TrimSpace(s) == s
  {
  }

  lemma TrimSpaceIdempotent(s: string)
    ensures TrimSpace(TrimSpace(s)) == TrimSpace(s)
  {
    TrimSpaceFixed(TrimSpace(s));
  }

  /** Nothing but blanks, tabs, line ends, vertical tabs and form feeds. */
  predicate White(s: string) {
    forall i | 0 <= i < |s| :: WhiteChar(s[i])
  }

  predicate WhiteChar(c: char) {
    c == ' ' || c == '\t' || c == '\n' || c == '\U{0B}' || c == '\U{0C}' || c == '\r'
  }

  /** `t` is what is between the white space at the ends of `s`. */
  ghost predicate Inside(s: string, t: string) {
    && (exists a, b :: s == a + t + b && White(a) && White(b))
    && (t != "" ==> !WhiteChar(t[0]) && !WhiteChar(t[|t| - 1]))
  }

  lemma {:induction false} LeftWhite(s: string) returns (a: string)
    ensures s == a + TrimLeft(s) && White(a)
    decreases |s|
  {
    a := "";
    if s != "" && IsSpace(s[0]) {
      a := LeftWhite(s[1..]);
      a := [s[0]] + a;
    }
  }

  lemma {:induction false} RightWhite(s: string) returns (b: string)
    ensures s == TrimRight(s, IsSpace) + b && White(b)
    decreases |s|
  {
    b := "";
    if s != "" && IsSpace(s[|s| - 1]) {
      b := RightWhite(s[..|s| - 1]);
      b := b + [s[|s| - 1]];
    }
  }

  lemma {:induction false} DropLeft(a: string, s: string)
    requires White(a) && (s == "" || !WhiteChar(s[0]))
    ensures TrimLeft(a + s) == s
    decreases |a|
  {
    if a == "" {
      assert a + s == s;
    } else {
      assert (a + s)[1..] == a[1..] + s;
      DropLeft(a[1..], s);
    }
  }

  lemma {:induction false} DropRight(s: string, b: string)
    requires White(b) && (s == "" || !WhiteChar(s[|s| - 1]))
    ensures TrimRight(s + b, IsSpace) == s
    decreases |b|
  {
    if b == "" {
      assert s + b == s;
    } else {
      assert (s + b)[..|s + b| - 1] == s + b[..|b| - 1];
      DropRight(s, b[..|b| - 1]);
    }
  }

  lemma TrimIsInside(s: string)
    ensures Inside(s, TrimSpace(s))
  {
    var a := LeftWhite(s);
    var b := RightWhite(TrimLeft(s));
    hide TrimLeft, TrimRight, White;
    assert s == a + TrimSpace(s) + b;
  }

  lemma InsideIsTrim(s: string, t: string, a: string, b: string)
    requires s == a + t + b && White(a) && White(b)
    requires t != "" ==> !WhiteChar(t[0]) && !WhiteChar(t[|t| - 1])
    ensures TrimSpace(s) == t
  {
    hide TrimLeft, TrimRight, WhiteChar;
    if t == "" {
      assert s == (a + b) + "";
      assert White(a + b);
      DropLeft(a + b, "");
      DropRight("", "");
    } else {
      assert s == a + (t + b);
      DropLeft(a, t + b);
      DropRight(t, b);
    }
  }

  /** Trimming takes the white space off both ends and nothing else. */
  lemma TrimSpaceExactly(s: string, t: string)
    ensures TrimSpace(s) == t <==> Inside(s, t)
  {
    hide TrimSpace, White, WhiteChar;
    TrimIsInside(s);
    if Inside(s, t) {
      var a, b :| s == a + t + b && White(a) && White(b);
      InsideIsTrim(s, t, a, b);
    }
  }

  function LowerChar(c: char): char {
    if 'A' <= c <= 'Z' then ((c as int) - ('A' as int) + ('a' as int)) as char else c
  }

  function ToLower(s: string): (r: string)
    ensures |r| == |s|
    ensures forall i :: 0 <= i < |s| ==> r[i] == LowerChar(s[i])
  {
    seq(|s|, i requires 0 <= i < |s| => LowerChar(s[i]))
  }

  lemma LowerWhite(c: char)
    ensures WhiteChar(LowerChar(c)) <==> WhiteChar(c)
  {
  }

  /** Lower case and trimming may be taken in either order. */
  lemma TrimLower(s: string)
    ensures TrimSpace(ToLower(s)) == ToLower(TrimSpace(s))
  {
    hide TrimSpace, WhiteChar, LowerChar;
    var t := TrimSpace(s);
    TrimIsInside(s);
    var a, b :| s == a + t + b && White(a) && White(b);
    forall c ensures WhiteChar(LowerChar(c)) <==> WhiteChar(c) {
      LowerWhite(c);
    }
    assert White(ToLower(a)) && White(ToLower(b));
    InsideIsTrim(ToLower(s), ToLower(t), ToLower(a), ToLower(b));
  }

  // ---- Decimal numbers ----

  predicate IsDigit(c: char) { '0' <= c <= '9' }

  function DigitChar(d: nat): (c: char)
    requires d < 10
    ensures IsDigit(c) && DigitValue(c) == d
  {
    (d + '0' as int) as char
  }

  function DigitValue(c: char): nat
    requires IsDigit(c)
  {
    c as int - '0' as int
  }

  /** The shortest decimal form, as fmt's %d and strconv.Itoa print a non-negative int. */
  function Dec(n: nat): (s: string)
    ensures s != ""
    ensures forall c <- s :: IsDigit(c)
  {
    if n < 10 then [DigitChar(n)] else Dec(n / 10) + [DigitChar(n % 10)]
  }

  predicate AllDigits(s: string) {
    forall c <- s :: IsDigit(c)
  }

  function DigitsValue(s: string): nat
    requires AllDigits(s)
  {
    if s == "" then 0 else DigitsValue(s[..|s| - 1]) * 10 + DigitValue(s[|s| - 1])
  }

  lemma {:induction false} DecRoundTrip(n: nat)
    ensures DigitsValue(Dec(n)) == n
  {
    if n >= 10 {
      DecRoundTrip(n / 10);
      assert Dec(n)[..|Dec(n)| - 1] == Dec(n / 10);
    }
  }

  const MAX_INT: int := 0x7FFF_FFFF_FFFF_FFFF

  /** strconv.Atoi on a 64-bit platform: an optional sign, at least one digit, in range. */
  function Atoi(s: string): Option<int> {
    var signed := s != "" && (s[0] == '+' || s[0] == '-');
    var digits := if signed then s[1..] else s;
    if digits == "" || !AllDigits(digits) then None
    else
      var magnitude: int := DigitsValue(digits);
      var n := if signed && s[0] == '-' then -magnitude else magnitude;
      if -MAX_INT - 1 <= n <= MAX_INT then Some(n) else None
  }

  lemma AtoiDec(n: nat)
    requires n <= MAX_INT
    ensures Atoi(Dec(n)) == Some(n)
  {
    DecRoundTrip(n);
    assert IsDigit(Dec(n)[0]);
  }

  function Zeros(k: nat): (s: string)
    ensures AllDigits(s)
  {
    seq(k, _ => '0')
  }

  lemma {:induction false} LeadingZeros(k: nat, d: string)
    requires AllDigits(d)
    ensures DigitsValue(Zeros(k) + d) == DigitsValue(d)
    decreases k + |d|
  {
    var s := Zeros(k) + d;
    if d != "" {
      LeadingZeros(k, d[..|d| - 1]);
      assert s[..|s| - 1] == Zeros(k) + d[..|d| - 1];
    } else if k > 0 {
      LeadingZeros(k - 1, d);
      assert s[..|s| - 1] == Zeros(k - 1) + d;
    }
  }

  /** A text of digits is the decimal form of its value behind some zeros. */
  lemma {:induction false} DigitsForm(d: string) returns (k: nat)
    requires d != "" && AllDigits(d)
    ensures d == Zeros(k) + Dec(DigitsValue(d))
  {
    var init, c := d[..|d| - 1], d[|d| - 1];
    assert DigitChar(DigitValue(c)) == c;
    if init == "" {
      k := 0;
    } else {
      k := DigitsForm(init);
      k := OneDigitMore(init, c, k);
    }
  }

  lemma OneDigitMore(init: string, c: char, zeros: nat) returns (k: nat)
    requires AllDigits(init) && IsDigit(c) && init == Zeros(zeros) + Dec(DigitsValue(init))
    ensures AllDigits(init + [c]) && init + [c] == Zeros(k) + Dec(DigitsValue(init + [c]))
  {
    var u := DigitsValue(init);
    assert (init + [c])[..|init|] == init;
    assert DigitsValue(init + [c]) == u * 10 + DigitValue(c);
    hide DigitsValue;
    assert [DigitChar(DigitValue(c))] == [c];
    if u == 0 {
      k := zeros + 1;
      assert Dec(0) == "0";
    } else {
      k := zeros;
    }
  }

  /** `s` writes `n`: an optional sign, any number of zeros, and the decimal form of its magnitude. */
  ghost predicate Writes(s: string, n: int) {
    exists sign: string, k: nat :: s == Written(sign, k, n) && Signs(sign, n)
  }

  function Written(sign: string, k: nat, n: int): string {
    sign + (Zeros(k) + Dec(if n < 0 then -n else n))
  }

  predicate Signs(sign: string, n: int) {
    (sign == "" || sign == "+" || sign == "-") && (if sign == "-" then n <= 0 else 0 <= n)
  }

  /** strconv.Atoi reads exactly the texts that write a 64-bit number, as that number. */
  lemma AtoiExactly(s: string, n: int)
    ensures Atoi(s) == Some(n) <==> Writes(s, n) && -0x8000_0000_0000_0000 <= n <= 0x7FFF_FFFF_FFFF_FFFF
  {
    if Atoi(s) == Some(n) {
      var signed := s[0] == '+' || s[0] == '-';
      var sign, digits := if signed then s[..1] else "", if signed then s[1..] else s;
      var k := DigitsForm(digits);
      assert s == sign + digits;
      assert s == Written(sign, k, n) && Signs(sign, n);
    }
    if Writes(s, n) {
      var sign, k :| s == Written(sign, k, n) && Signs(sign, n);
      WritesIsRead(s, n, sign, k);
    }
  }

  lemma WritesIsRead(s: string, n: int, sign: string, k: nat)
    requires s == Written(sign, k, n) && Signs(sign, n)
    ensures Atoi(s) == if -0x8000_0000_0000_0000 <= n <= 0x7FFF_FFFF_FFFF_FFFF then Some(n) else None
  {
    var m := if n < 0 then -n else n;
    var digits := Zeros(k) + Dec(m);
    LeadingZeros(k, Dec(m));
    DecRoundTrip(m);
    assert digits != "" && AllDigits(digits) && IsDigit(digits[0]);
    hide Dec, Zeros, DigitsValue;
    if sign != "" {
      assert s[1..] == digits;
    } else {
      assert s == digits;
    }
  }
}
