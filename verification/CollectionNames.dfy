/** Physical collection names: the user id in unpadded Base32 (RFC 4648, section 6), reversibly. */
module CollectionNames {
  import opened Ordering
  import opened Sequences
  import opened Text

  // ----------------------------------------------------------------- positional numbers

  /** The bytes are digits of base 256, the letters of base 32. */
  datatype Base = Bytes | Quintets {
    function Size(): nat {
      if Bytes? then 256 else 32
    }

    function Times(q: nat, d: nat): nat {
      if Bytes? then 256 * q + d else 32 * q + d
    }

    function Rest(v: nat): nat {
      if Bytes? then v / 256 else v / 32
    }

    function Last(v: nat): nat {
      if Bytes? then v % 256 else v % 32
    }
  }

  predicate AllBelow(ds: seq<nat>, bound: nat) {
    forall i :: 0 <= i < |ds| ==> ds[i] < bound
  }

  function Power(base: Base, n: nat): nat {
    if n == 0 then 1 else base.Times(Power(base, n - 1), 0)
  }

  function Digits(v: nat, base: Base, n: nat): (ds: seq<nat>)
    ensures |ds| == n && AllBelow(ds, base.Size())
  {
    if n == 0 then [] else Digits(base.Rest(v), base, n - 1) + [base.Last(v)]
  }

  function Number(ds: seq<nat>, base: Base): nat {
    if ds == [] then 0 else base.Times(Number(ds[..|ds| - 1], base), ds[|ds| - 1])
  }

  lemma {:induction false} NumberOfDigits(v: nat, base: Base, n: nat)
    requires v < Power(base, n)
    ensures Number(Digits(v, base, n), base) == v
    decreases n
  {
    if n > 0 {
      NumberOfDigits(base.Rest(v), base, n - 1);
      assert Digits(v, base, n)[..n - 1] == Digits(base.Rest(v), base, n - 1);
    }
  }

  lemma {:induction false} DigitsOfNumber(ds: seq<nat>, base: Base)
    requires AllBelow(ds, base.Size())
    ensures Digits(Number(ds, base), base, |ds|) == ds
    ensures Number(ds, base) < Power(base, |ds|)
    decreases |ds|
  {
    if ds != [] {
      var front, last := ds[..|ds| - 1], ds[|ds| - 1];
      DigitsOfNumber(front, base);
      LastOfTimes(base, Number(front, base), last);
      BelowNext(base, Number(front, base), last, Power(base, |front|));
      assert front + [last] == ds;
    }
  }

  lemma LastOfTimes(base: Base, q: nat, d: nat)
    requires d < base.Size()
    ensures base.Rest(base.Times(q, d)) == q && base.Last(base.Times(q, d)) == d
  {
  }

  lemma BelowNext(base: Base, q: nat, d: nat, p: nat)
    requires q < p && d < base.Size()
    ensures base.Times(q, d) < base.Times(p, 0)
  {
  }

  // ----------------------------------------------------------------- Base32

  const ALPHABET := "ABCDEFGHIJKLMNOPQRSTUVWXYZ234567"

  function Letter(d: nat): char
    requires d < 32
  {
    if d < 26 then ('A' as int + d) as char else ('2' as int + d - 26) as char
  }

  function Digit(c: char): Option<nat> {
    if 'A' <= c <= 'Z' then Some(c as int - 'A' as int)
    else if '2' <= c <= '7' then Some(c as int - '2' as int + 26)
    else None
  }

  lemma LettersAreTheAlphabet(d: nat)
    requires d < 32
    ensures Letter(d) == ALPHABET[d] && Digit(Letter(d)) == Some(d) && Letter(d) != '='
  {
  }

  function Letters(ds: seq<nat>): (s: string)
    requires AllBelow(ds, 32)
    ensures |s| == |ds|
  {
    seq(|ds|, i requires 0 <= i < |ds| => Letter(ds[i]))
  }

  function Zeros(n: nat): (ds: seq<nat>)
    ensures |ds| == n && forall i :: 0 <= i < n ==> ds[i] == 0
  {
    seq(n, _ => 0)
  }

  /** Five bytes, the missing ones zero, as eight digits of base 32. */
  function Quantum(b: seq<Byte>): (ds: seq<nat>)
    requires |b| <= 5
    ensures |ds| == 8 && AllBelow(ds, 32)
  {
    Digits(Number(b + Zeros(5 - |b|), Bytes), Quintets, 8)
  }

  /** How many letters of a quantum carry the bits of so many bytes. */
  function Carried(bytes: nat): (letters: nat)
    requires bytes <= 5
    ensures letters <= 8
  {
    (8 * bytes + 4) / 5
  }

  function Padding(n: nat): string {
    seq(n, _ => '=')
  }

  /** `base64.b32encode` */
  function Encoded(b: seq<Byte>): string
    decreases |b|
  {
    if b == [] then ""
    else if |b| < 5 then Letters(Quantum(b)[..Carried(|b|)]) + Padding(8 - Carried(|b|))
    else Letters(Quantum(b[..5])) + Encoded(b[5..])
  }

  /** `rstrip("=")` */
  function StripPadding(s: string): string
    decreases |s|
  {
    if s != [] && s[|s| - 1] == '=' then StripPadding(s[..|s| - 1]) else s
  }

  function Token(b: seq<Byte>): string {
    StripPadding(Encoded(b))
  }

  lemma NumberNext(ds: seq<nat>, last: nat, base: Base)
    ensures Number(ds + [last], base) == base.Times(Number(ds, base), last)
  {
    assert (ds + [last])[..|ds|] == ds;
  }

  lemma NumberOfFour(a: nat, b: nat, c: nat, d: nat, base: Base)
    ensures Number([a, b, c, d], base) == base.Times(base.Times(base.Times(a, b), c), d)
  {
    NumberNext([], a, base);
    NumberNext([a], b, base);
    NumberNext([a, b], c, base);
    NumberNext([a, b, c], d, base);
    assert [] + [a] == [a] && [a] + [b] == [a, b] && [a, b] + [c] == [a, b, c] && [a, b, c] + [d] == [a, b, c, d];
  }

  lemma NumberOfFive(a: nat, b: nat, c: nat, d: nat, e: nat)
    ensures Number([a, b, c, d, e], Bytes) == 256 * (256 * (256 * (256 * a + b) + c) + d) + e
  {
    NumberOfFour(a, b, c, d, Bytes);
    NumberNext([a, b, c, d], e, Bytes);
    assert [a, b, c, d] + [e] == [a, b, c, d, e];
  }

  lemma NumberOfEight(a: nat, b: nat, c: nat, d: nat, e: nat, f: nat, g: nat, h: nat)
    ensures Number([a, b, c, d, e, f, g, h], Quintets)
      == 32 * (32 * (32 * (32 * (32 * (32 * (32 * a + b) + c) + d) + e) + f) + g) + h
  {
    NumberOfFour(a, b, c, d, Quintets);
    NumberNext([a, b, c, d], e, Quintets);
    NumberNext([a, b, c, d, e], f, Quintets);
    NumberNext([a, b, c, d, e, f], g, Quintets);
    NumberNext([a, b, c, d, e, f, g], h, Quintets);
    assert [a, b, c, d] + [e] == [a, b, c, d, e] && [a, b, c, d, e] + [f] == [a, b, c, d, e, f];
    assert [a, b, c, d, e, f] + [g] == [a, b, c, d, e, f, g] && [a, b, c, d, e, f, g] + [h] == [a, b, c, d, e, f, g, h];
  }

  /** A byte in three parts: above, five bits, below. */
  lemma ThreeParts(b: Byte, unit: nat)
    requires unit in {2, 4}
    ensures b == b / (32 * unit) * (32 * unit) + b / unit % 32 * unit + b % unit
  {
    var q, r := b / unit, b % unit;
    var h, m := q / 32, q % 32;
    if unit == 2 {
      assert b == 64 * h + (2 * m + r);
    } else {
      assert b == 128 * h + (4 * m + r);
    }
  }

  /** The same forty bits in groups of eight and of five; above, middle and below of each byte. */
  lemma Regroups(a0: nat, c0: nat, a1: nat, m1: nat, c1: nat, a2: nat, c2: nat, a3: nat, m3: nat, c3: nat, a4: nat, c4: nat)
    ensures 256 * (256 * (256 * (256 * (8 * a0 + c0) + (64 * a1 + 2 * m1 + c1)) + (16 * a2 + c2)) + (128 * a3 + 4 * m3 + c3)) + (32 * a4 + c4)
      == 32 * (32 * (32 * (32 * (32 * (32 * (32 * a0 + (c0 * 4 + a1)) + m1) + (c1 * 16 + a2)) + (c2 * 2 + a3)) + m3) + (c3 * 8 + a4)) + c4
  {
  }

  /** Section 6 of RFC 4648: forty bits, five at a time from the left. */
  lemma QuantumBits(b0: Byte, b1: Byte, b2: Byte, b3: Byte, b4: Byte)
    ensures Quantum([b0, b1, b2, b3, b4])
      == [b0 / 8, b0 % 8 * 4 + b1 / 64, b1 / 2 % 32, b1 % 2 * 16 + b2 / 16,
          b2 % 16 * 2 + b3 / 128, b3 / 4 % 32, b3 % 4 * 8 + b4 / 32, b4 % 32]
  {
    var d0, d1, d2, d3 := b0 / 8, b0 % 8 * 4 + b1 / 64, b1 / 2 % 32, b1 % 2 * 16 + b2 / 16;
    var d4, d5, d6, d7 := b2 % 16 * 2 + b3 / 128, b3 / 4 % 32, b3 % 4 * 8 + b4 / 32, b4 % 32;
    var ds: seq<nat> := [d0, d1, d2, d3, d4, d5, d6, d7];
    assert [b0, b1, b2, b3, b4] + Zeros(0) == [b0, b1, b2, b3, b4];
    assert Number([b0, b1, b2, b3, b4], Bytes) == Number(ds, Quintets) by {
      ThreeParts(b1, 2);
      ThreeParts(b3, 4);
      NumberOfFive(b0, b1, b2, b3, b4);
      NumberOfEight(d0, d1, d2, d3, d4, d5, d6, d7);
      Regroups(b0 / 8, b0 % 8, b1 / 64, b1 / 2 % 32, b1 % 2, b2 / 16, b2 % 16, b3 / 128, b3 / 4 % 32, b3 % 4, b4 / 32, b4 % 32);
    }
    DigitsOfNumber(ds, Quintets);
  }

  // ----------------------------------------------------------------- and back

  function ReadDigits(s: string): Option<seq<nat>>
    ensures ReadDigits(s).Some? ==> |ReadDigits(s).value| == |s|
  {
    if exists i :: 0 <= i < |s| && Digit(s[i]).None? then None
    else Some(seq(|s|, i requires 0 <= i < |s| => Digit(s[i]).value))
  }

  function Unquantum(ds: seq<nat>): (b: seq<Byte>)
    requires |ds| <= 8
    ensures |b| == 5
  {
    Digits(Number(ds + Zeros(8 - |ds|), Quintets), Bytes, 5)
  }

  function Decoded(token: string): Option<seq<Byte>>
    decreases |token|
  {
    if token == "" then Some([])
    else
      var n := if |token| < 8 then |token| else 8;
      var ds := ReadDigits(token[..n]);
      var rest := Decoded(token[n..]);
      if ds.None? || rest.None? then None else Some(Unquantum(ds.value)[..5 * n / 8] + rest.value)
  }

  lemma ReadsLetters(ds: seq<nat>)
    requires AllBelow(ds, 32)
    ensures ReadDigits(Letters(ds)) == Some(ds)
  {
    forall i | 0 <= i < |ds| ensures Digit(Letters(ds)[i]) == Some(ds[i]) {
      LettersAreTheAlphabet(ds[i]);
    }
    var read := ReadDigits(Letters(ds)).value;
    assert forall i :: 0 <= i < |ds| ==> read[i] == ds[i];
    assert read == ds;
  }

  lemma Powers()
    ensures Power(Bytes, 5) == Power(Quintets, 8) == 0x100_0000_0000
  {
    assert Power(Quintets, 4) == 0x10_0000;
  }

  /** Followed by so many zero digits. */
  function Shift(v: nat, base: Base, j: nat): nat {
    if j == 0 then v else base.Times(Shift(v, base, j - 1), 0)
  }

  lemma {:induction false} NumberOfShift(ds: seq<nat>, base: Base, j: nat)
    ensures Number(ds + Zeros(j), base) == Shift(Number(ds, base), base, j)
    decreases j
  {
    if j == 0 {
      assert ds + Zeros(0) == ds;
    } else {
      NumberOfShift(ds, base, j - 1);
      var whole := ds + Zeros(j);
      assert whole[..|whole| - 1] == ds + Zeros(j - 1);
    }
  }

  lemma {:induction false} DigitsOfShift(v: nat, base: Base, n: nat, j: nat)
    requires j <= n
    ensures Digits(Shift(v, base, j), base, n)[n - j..] == Zeros(j)
    decreases j
  {
    if j > 0 {
      var front := Digits(Shift(v, base, j - 1), base, n - 1);
      DigitsOfShift(v, base, n - 1, j - 1);
      assert Digits(Shift(v, base, j), base, n) == front + [0];
      assert (front + [0])[n - j..] == front[n - j..] + [0];
    }
  }

  lemma ByteShifts(v: nat)
    ensures Shift(v, Bytes, 1) == 256 * v && Shift(v, Bytes, 2) == 0x1_0000 * v
    ensures Shift(v, Bytes, 3) == 0x100_0000 * v && Shift(v, Bytes, 4) == 0x1_0000_0000 * v
  {
    assert Shift(v, Bytes, 1) == 256 * v;
    assert Shift(v, Bytes, 2) == 0x1_0000 * v;
    assert Shift(v, Bytes, 3) == 0x100_0000 * v;
  }

  lemma QuintetShifts(v: nat)
    ensures Shift(v, Quintets, 1) == 32 * v && Shift(v, Quintets, 3) == 0x8000 * v
    ensures Shift(v, Quintets, 4) == 0x10_0000 * v && Shift(v, Quintets, 6) == 0x4000_0000 * v
  {
    assert Shift(v, Quintets, 1) == 32 * v;
    assert Shift(v, Quintets, 2) == 0x400 * v;
    assert Shift(v, Quintets, 3) == 0x8000 * v;
    assert Shift(v, Quintets, 4) == 0x10_0000 * v;
    assert Shift(v, Quintets, 5) == 0x200_0000 * v;
  }

  /** The digits beyond those that carry bits are zero. */
  lemma ShiftedQuantum(b: seq<Byte>) returns (w: nat)
    requires 0 < |b| < 5
    ensures Number(b + Zeros(5 - |b|), Bytes) == Shift(w, Quintets, 8 - Carried(|b|))
  {
    var v := Number(b, Bytes);
    NumberOfShift(b, Bytes, 5 - |b|);
    ByteShifts(v);
    w := if |b| == 1 then 4 * v else if |b| == 2 then 16 * v else if |b| == 3 then 2 * v else 8 * v;
    QuintetShifts(w);
  }

  lemma BeyondCarried(b: seq<Byte>)
    requires 0 < |b| < 5
    ensures Quantum(b)[Carried(|b|)..] == Zeros(8 - Carried(|b|))
  {
    var w := ShiftedQuantum(b);
    DigitsOfShift(w, Quintets, 8, 8 - Carried(|b|));
  }
  lemma QuantumBack(b: seq<Byte>)
    requires |b| <= 5
    ensures Unquantum(Quantum(b)) == b + Zeros(5 - |b|)
  {
    var padded := b + Zeros(5 - |b|);
    Powers();
    DigitsOfNumber(padded, Bytes);
    NumberOfDigits(Number(padded, Bytes), Quintets, 8);
    assert Quantum(b) + Zeros(0) == Quantum(b);
  }

  lemma {:induction false} StripAll(s: string, n: nat)
    requires s == "" || s[|s| - 1] != '='
    ensures StripPadding(s + Padding(n)) == s
    decreases n
  {
    if n == 0 {
      assert s + Padding(0) == s;
    } else {
      var whole := s + Padding(n);
      assert whole[..|whole| - 1] == s + Padding(n - 1);
      StripAll(s, n - 1);
    }
  }

  /** The token without going through the padding. */
  function Plain(b: seq<Byte>): string
    decreases |b|
  {
    if b == [] then ""
    else if |b| < 5 then Letters(Quantum(b)[..Carried(|b|)])
    else Letters(Quantum(b[..5])) + Plain(b[5..])
  }

  function Missing(n: nat): nat {
    if n % 5 == 0 then 0 else 8 - Carried(n % 5)
  }

  lemma {:induction false} EncodedIsPadded(b: seq<Byte>)
    ensures Encoded(b) == Plain(b) + Padding(Missing(|b|))
    decreases |b|
  {
    if |b| >= 5 {
      var rest := b[5..];
      EncodedIsPadded(rest);
      MissingStep(|b|);
      Associates(Letters(Quantum(b[..5])), Plain(rest), Padding(Missing(|b|)));
    } else if b == [] {
      assert Padding(0) == "";
    } else {
      assert Missing(|b|) == 8 - Carried(|b|);
    }
  }

  lemma MissingStep(n: nat)
    requires n >= 5
    ensures Missing(n - 5) == Missing(n)
  {
    assert (n - 5) % 5 == n % 5;
  }

  predicate InAlphabet(s: string) {
    forall i :: 0 <= i < |s| ==> s[i] in ALPHABET
  }

  lemma LettersInAlphabet(ds: seq<nat>)
    requires AllBelow(ds, 32)
    ensures InAlphabet(Letters(ds))
  {
    forall i | 0 <= i < |ds| ensures Letters(ds)[i] in ALPHABET {
      LettersAreTheAlphabet(ds[i]);
      assert ALPHABET[ds[i]] in ALPHABET;
    }
  }

  lemma {:induction false} PlainInAlphabet(b: seq<Byte>)
    ensures InAlphabet(Plain(b))
    decreases |b|
  {
    if |b| >= 5 {
      LettersInAlphabet(Quantum(b[..5]));
      PlainInAlphabet(b[5..]);
    } else if b != [] {
      LettersInAlphabet(Quantum(b)[..Carried(|b|)]);
    }
  }

  lemma TokenIsPlain(b: seq<Byte>)
    ensures Token(b) == Plain(b) && InAlphabet(Token(b))
  {
    EncodedIsPadded(b);
    PlainInAlphabet(b);
    assert '=' !in ALPHABET;
    StripAll(Plain(b), Missing(|b|));
  }

  lemma DecodedShort(token: string)
    requires 0 < |token| < 8 && ReadDigits(token).Some?
    ensures Decoded(token) == Some(Unquantum(ReadDigits(token).value)[..5 * |token| / 8])
  {
    assert token[..|token|] == token && token[|token|..] == "";
    var b := Unquantum(ReadDigits(token).value)[..5 * |token| / 8];
    assert b + [] == b;
  }

  lemma LastGroupBack(b: seq<Byte>)
    requires 0 < |b| < 5
    ensures Decoded(Plain(b)) == Some(b)
  {
    var m := Carried(|b|);
    var ds := Quantum(b)[..m];
    ReadsLetters(ds);
    DecodedShort(Letters(ds));
    BeyondCarried(b);
    UnquantumOfCarried(b);
  }

  lemma UnquantumOfCarried(b: seq<Byte>)
    requires 0 < |b| < 5
    ensures Unquantum(Quantum(b)[..Carried(|b|)])[..|b|] == b && 5 * Carried(|b|) / 8 == |b|
  {
    var m := Carried(|b|);
    BeyondCarried(b);
    assert Quantum(b)[..m] + Zeros(8 - m) == Quantum(b);
    assert Quantum(b) + Zeros(0) == Quantum(b);
    QuantumBack(b);
  }

  /** Base32 without padding decodes to the bytes, whatever their number. */
  lemma {:induction false} TokenBack(b: seq<Byte>)
    ensures Decoded(Plain(b)) == Some(b)
    decreases |b|
  {
    if |b| >= 5 {
      var ds, rest := Quantum(b[..5]), Plain(b[5..]);
      var token := Letters(ds) + rest;
      TokenBack(b[5..]);
      assert token[..8] == Letters(ds) && token[8..] == rest;
      ReadsLetters(ds);
      QuantumBack(b[..5]);
      assert b[..5] + Zeros(0) == b[..5];
      assert b[..5][..5] + b[5..] == b;
    } else if b != [] {
      LastGroupBack(b);
    }
  }

  // ----------------------------------------------------------------- UTF-8 (RFC 3629, section 3)

  function Continuation(n: nat): Byte {
    0x80 + n % 64
  }

  function Utf8Char(c: char): (b: seq<Byte>)
    ensures 0 < |b| <= 4
  {
    var n: nat := c as int;
    if n < 0x80 then [n]
    else if n < 0x800 then assert n / 64 < 32; [0xC0 + n / 64, Continuation(n)]
    else if n < 0x1_0000 then assert n / 4096 < 16; [0xE0 + n / 4096, Continuation(n / 64), Continuation(n)]
    else assert n / 26_2144 < 5; [0xF0 + n / 26_2144, Continuation(n / 4096), Continuation(n / 64), Continuation(n)]
  }

  function Utf8(s: string): seq<Byte> {
    if s == "" then [] else Utf8Char(s[0]) + Utf8(s[1..])
  }

  function Width(first: Byte): (n: nat)
    ensures n > 0
  {
    if first < 0x80 then 1 else if first < 0xE0 then 2 else if first < 0xF0 then 3 else 4
  }

  function Above(b: Byte, base: int): int {
    b as int - base
  }

  function CodePoint(b: seq<Byte>): int
    requires b != [] && |b| == Width(b[0])
  {
    match |b|
    case 1 => b[0] as int
    case 2 => Above(b[0], 0xC0) * 64 + Above(b[1], 0x80)
    case 3 => Above(b[0], 0xE0) * 4096 + Above(b[1], 0x80) * 64 + Above(b[2], 0x80)
    case _ => Above(b[0], 0xF0) * 26_2144 + Above(b[1], 0x80) * 4096 + Above(b[2], 0x80) * 64 + Above(b[3], 0x80)
  }

  function ReadUtf8(b: seq<Byte>): Option<string>
    decreases |b|
  {
    if b == [] then Some("")
    else if |b| < Width(b[0]) then None
    else
      var n := CodePoint(b[..Width(b[0])]);
      var rest := ReadUtf8(b[Width(b[0])..]);
      if rest.None? || !(0 <= n < 0xD800 || 0xE000 <= n < 0x11_0000) then None else Some([n as char] + rest.value)
  }

  /** Section 3 of RFC 3629: so many bytes for so large a code point, its bits in them from the left,
      six in each continuation byte. */
  lemma Utf8Exactly(c: char)
    ensures var b, n := Utf8Char(c), c as int;
      && (n < 0x80 ==> b == [n])
      && (0x80 <= n < 0x800 ==> |b| == 2 && Tail(b) && 0xC2 <= b[0] < 0xE0 && n == (b[0] as int - 0xC0) * 64 + Six(b[1]))
      && (0x800 <= n < 0x1_0000 ==> |b| == 3 && Tail(b) && 0xE0 <= b[0] < 0xF0 && n == (b[0] as int - 0xE0) * 4096 + Six(b[1]) * 64 + Six(b[2]))
      && (0x1_0000 <= n ==> |b| == 4 && Tail(b) && 0xF0 <= b[0] < 0xF5 && n == (b[0] as int - 0xF0) * 26_2144 + Six(b[1]) * 4096 + Six(b[2]) * 64 + Six(b[3]))
  {
    var n := c as int;
    SixOf(n);
    SixOf(n / 64);
    SixOf(n / 4096);
    assert n / 4096 == n / 64 / 64 && n / 26_2144 == n / 64 / 64 / 64;
  }

  lemma SixOf(n: nat)
    ensures Six(Continuation(n)) == n % 64 && 0x80 <= Continuation(n) < 0xC0
  {
  }

  /** The low six bits. */
  function Six(b: Byte): int {
    b as int % 64
  }

  /** Every byte but the first is a continuation byte. */
  predicate Tail(b: seq<Byte>) {
    forall i :: 0 < i < |b| ==> 0x80 <= b[i] < 0xC0
  }

  lemma CharBack(c: char)
    ensures var b := Utf8Char(c);
      |b| == Width(b[0]) && CodePoint(b) == c as int
  {
    var n := c as int;
    assert n / 4096 == n / 64 / 64 && n / 26_2144 == n / 64 / 64 / 64;
  }

  lemma {:induction false} Utf8Back(s: string)
    ensures ReadUtf8(Utf8(s)) == Some(s)
    decreases |s|
  {
    if s != "" {
      var b, rest := Utf8Char(s[0]), Utf8(s[1..]);
      CharBack(s[0]);
      assert (b + rest)[0] == b[0] && (b + rest)[..|b|] == b && (b + rest)[|b|..] == rest;
      Utf8Back(s[1..]);
      Uncons(s);
    }
  }

  // ----------------------------------------------------------------- names

  datatype Collection = Conversations | KnowledgeFacts | Policy

  datatype Result = Ok(name: string) | Err(error: Error)

  datatype Error = EmptyUser | UntrimmedUser | RefusedUser | UnsupportedType

  function Suffix(t: Collection): string {
    match t
    case Conversations => "Conversations"
    case KnowledgeFacts => "KnowledgeFacts"
    case Policy => "Policy"
  }

  /** `str.lower` as far as ASCII results go: besides A to Z only the Kelvin sign has one. */
  function Lower(s: string): string {
    seq(|s|, i requires 0 <= i < |s| =>
      if 'A' <= s[i] <= 'Z' then (s[i] as int + 32) as char else if s[i] as int == 0x212A then 'k' else s[i])
  }

  function Normalized(collectionType: string): Option<Collection> {
    var t := Lower(Strip(collectionType));
    if t == "conversations" then Some(Conversations)
    else if t == "knowledge_facts" then Some(KnowledgeFacts)
    else if t == "policy" then Some(Policy)
    else None
  }

  /** The same word, but for capital letters; the Kelvin sign passes for a "k". */
  predicate Spells(t: string, word: string) {
    |t| == |word| && forall i :: 0 <= i < |t| ==>
      t[i] == word[i] || ('a' <= word[i] <= 'z' && t[i] as int == word[i] as int - 32) || (word[i] == 'k' && t[i] as int == 0x212A)
  }

  /** The word with white space around it. */
  ghost predicate Means(text: string, word: string) {
    exists a, m, b :: Around(text, a, m, b) && Spells(m, word)
  }

  ghost predicate Around(text: string, a: string, m: string, b: string) {
    Blank(a) && Blank(b) && text == a + m + b
  }

  /** A word of small letters and underscores, as the three types are. */
  predicate Word(word: string) {
    word != "" && forall i :: 0 <= i < |word| ==> 'a' <= word[i] <= 'z' || word[i] == '_'
  }

  lemma LowerSpells(t: string, word: string)
    requires Word(word)
    ensures Lower(t) == word <==> Spells(t, word)
  {
    if Lower(t) == word {
      forall i | 0 <= i < |t|
        ensures t[i] == word[i] || ('a' <= word[i] <= 'z' && t[i] as int == word[i] as int - 32) || (word[i] == 'k' && t[i] as int == 0x212A)
      {
        assert Lower(t)[i] == word[i];
      }
    }
  }

  lemma MeansExactly(text: string, word: string)
    requires Word(word)
    ensures Lower(Strip(text)) == word <==> Means(text, word)
  {
    if Lower(Strip(text)) == word {
      var a, b := StripSplits(text);
      LowerSpells(Strip(text), word);
      assert Around(text, a, Strip(text), b);
    }
    if Means(text, word) {
      var a, m, b :| Around(text, a, m, b) && Spells(m, word);
      assert Bare(m);
      StripOf(a, m, b);
      LowerSpells(m, word);
    }
  }

  /** Which texts name which type: nothing but the three words, in any case, with white space around. */
  lemma NormalizedExactly(text: string)
    ensures Normalized(text) == Some(Conversations) <==> Means(text, "conversations")
    ensures Normalized(text) == Some(KnowledgeFacts) <==> Means(text, "knowledge_facts")
    ensures Normalized(text) == Some(Policy) <==> Means(text, "policy")
  {
    MeansExactly(text, "conversations");
    MeansExactly(text, "knowledge_facts");
    MeansExactly(text, "policy");
  }

  function NameOf(user: string, t: Collection): string {
    "RagUser_" + (Token(Utf8(user)) + ("_" + Suffix(t)))
  }

  /** USER_ID_PATTERN is configured; `matches` is its full match. */
  function GetCollectionName(user: string, collectionType: string, matches: string -> bool): Result {
    if user == "" then Err(EmptyUser)
    else if user != Strip(user) then Err(UntrimmedUser)
    else if !matches(user) then Err(RefusedUser)
    else
      match Normalized(collectionType)
      case None => Err(UnsupportedType)
      case Some(t) => Ok(NameOf(user, t))
  }

  /** What is answered for what: the user id must begin and end with a character that is no white
      space and match the pattern, and the type must be one of the three words. */
  lemma AnswersExactly(user: string, text: string, matches: string -> bool)
    ensures var r := GetCollectionName(user, text, matches);
      && (r == Err(EmptyUser) <==> user == "")
      && (r == Err(UntrimmedUser) <==> !Bare(user))
      && (r == Err(RefusedUser) <==> user != "" && Bare(user) && !matches(user))
      && (r.Ok? || r == Err(UnsupportedType) <==> user != "" && Bare(user) && matches(user))
      && (r.Ok? ==> Means(text, "conversations") || Means(text, "knowledge_facts") || Means(text, "policy"))
      && (r == Err(UnsupportedType) ==> !Means(text, "conversations") && !Means(text, "knowledge_facts") && !Means(text, "policy"))
  {
    NormalizedExactly(text);
    BareExactly(user);
  }

  /** The name that each of the three words gives. */
  lemma NamesSpelled(user: string, text: string, matches: string -> bool)
    requires GetCollectionName(user, text, matches).Ok?
    ensures var name := GetCollectionName(user, text, matches).name;
      && (Means(text, "conversations") ==> name == "RagUser_" + Token(Utf8(user)) + "_Conversations")
      && (Means(text, "knowledge_facts") ==> name == "RagUser_" + Token(Utf8(user)) + "_KnowledgeFacts")
      && (Means(text, "policy") ==> name == "RagUser_" + Token(Utf8(user)) + "_Policy")
  {
    NormalizedExactly(text);
    NameSpelled(user, Normalized(text).value);
  }

  lemma NameSpelled(user: string, t: Collection)
    ensures NameOf(user, t) == "RagUser_" + Token(Utf8(user))
      + (if t.Conversations? then "_Conversations" else if t.KnowledgeFacts? then "_KnowledgeFacts" else "_Policy")
  {
    assert "_" + Suffix(t) == if t.Conversations? then "_Conversations" else if t.KnowledgeFacts? then "_KnowledgeFacts" else "_Policy";
    Associates("RagUser_", Token(Utf8(user)), "_" + Suffix(t));
  }

  lemma BareExactly(s: string)
    ensures s == Strip(s) <==> Bare(s)
  {
    var a, b := StripSplits(s);
    if Bare(s) {
      assert "" + s + "" == s;
      StripOf("", s, "");
    }
  }

  /** The launcher's own construction. */
  function UserCollectionNames(user: string): set<string> {
    var token := Token(Utf8(user));
    {"RagUser_" + token + "_Conversations", "RagUser_" + token + "_KnowledgeFacts", "RagUser_" + token + "_Policy"}
  }

  // ----------------------------------------------------------------- reading a name

  function Underscore(s: string): (i: nat)
    ensures i <= |s|
  {
    if s == "" || s[0] == '_' then 0 else 1 + Underscore(s[1..])
  }

  function SuffixType(s: string): Option<Collection> {
    if s == "Conversations" then Some(Conversations)
    else if s == "KnowledgeFacts" then Some(KnowledgeFacts)
    else if s == "Policy" then Some(Policy)
    else None
  }

  function ReadName(name: string): Option<(string, Collection)> {
    if !("RagUser_" <= name) then None
    else
      var rest := name[8..];
      var at := Underscore(rest);
      if at == |rest| then None
      else
        var bytes := Decoded(rest[..at]);
        var t := SuffixType(rest[at + 1..]);
        if bytes.None? || t.None? then None
        else
          var user := ReadUtf8(bytes.value);
          if user.None? then None else Some((user.value, t.value))
  }

  lemma {:induction false} FirstUnderscore(token: string, rest: string)
    requires '_' !in token
    ensures Underscore(token + ("_" + rest)) == |token|
    decreases |token|
  {
    if token == "" {
      assert (token + ("_" + rest))[0] == '_';
    } else {
      FirstUnderscore(token[1..], rest);
      assert (token + ("_" + rest))[1..] == token[1..] + ("_" + rest);
      assert (token + ("_" + rest))[0] == token[0];
    }
  }

  lemma TokenReads(user: string)
    ensures '_' !in Token(Utf8(user)) && Decoded(Token(Utf8(user))) == Some(Utf8(user))
  {
    TokenIsPlain(Utf8(user));
    TokenBack(Utf8(user));
    NoUnderscore(Token(Utf8(user)));
  }

  lemma NoUnderscore(s: string)
    requires InAlphabet(s)
    ensures '_' !in s
  {
    assert '_' !in ALPHABET;
  }

  lemma NameParts(token: string, suffix: string)
    requires '_' !in token
    ensures var name := "RagUser_" + (token + ("_" + suffix));
      && "RagUser_" <= name && name[8..] == token + ("_" + suffix)
      && Underscore(name[8..]) == |token| < |name[8..]|
      && name[8..][..|token|] == token && name[8..][|token| + 1..] == suffix
  {
    FirstUnderscore(token, suffix);
    assert ("RagUser_" + (token + ("_" + suffix)))[8..] == token + ("_" + suffix);
  }

  /** A name gives back its user id and collection type, whatever the user id. */
  lemma NameBack(user: string, t: Collection)
    ensures ReadName(NameOf(user, t)) == Some((user, t))
  {
    TokenReads(user);
    Utf8Back(user);
    NameParts(Token(Utf8(user)), Suffix(t));
  }

  /** Different users or different types never share a collection. */
  lemma NamesAreInjective(user1: string, type1: string, user2: string, type2: string, matches: string -> bool)
    requires GetCollectionName(user1, type1, matches).Ok? && GetCollectionName(user2, type2, matches).Ok?
    ensures GetCollectionName(user1, type1, matches) == GetCollectionName(user2, type2, matches)
      <==> user1 == user2 && Normalized(type1) == Normalized(type2)
  {
    NameBack(user1, Normalized(type1).value);
    NameBack(user2, Normalized(type2).value);
  }

  lemma LauncherNames(user: string)
    ensures UserCollectionNames(user) == {NameOf(user, Conversations), NameOf(user, KnowledgeFacts), NameOf(user, Policy)}
  {
    NameSpelled(user, Conversations);
    NameSpelled(user, KnowledgeFacts);
    NameSpelled(user, Policy);
  }

  lemma ThreeNames(user: string)
    ensures |UserCollectionNames(user)| == 3
  {
    LauncherNames(user);
    NameBack(user, Conversations);
    NameBack(user, KnowledgeFacts);
    NameBack(user, Policy);
  }

  predicate Accepted(user: string, matches: string -> bool) {
    user != "" && user == Strip(user) && matches(user)
  }

  /** Every name that the backend produces for a user is in the launcher's set. */
  lemma LauncherKnowsEveryName(user: string, t: string, matches: string -> bool)
    requires GetCollectionName(user, t, matches).Ok?
    ensures GetCollectionName(user, t, matches).name in UserCollectionNames(user)
  {
    LauncherNames(user);
  }

  /** Every name in the launcher's set is one that the backend produces for the accepted user. */
  lemma LauncherInventsNoName(user: string, name: string, matches: string -> bool)
    requires Accepted(user, matches) && name in UserCollectionNames(user)
    ensures exists t: string :: GetCollectionName(user, t, matches) == Ok(name)
  {
    LauncherNames(user);
    var c: Collection :| name == NameOf(user, c);
    Produced(user, c, matches);
  }

  function WordOf(c: Collection): string {
    match c
    case Conversations => "conversations"
    case KnowledgeFacts => "knowledge_facts"
    case Policy => "policy"
  }

  lemma Produced(user: string, c: Collection, matches: string -> bool)
    requires Accepted(user, matches)
    ensures GetCollectionName(user, WordOf(c), matches) == Ok(NameOf(user, c))
  {
    TypesReachable();
  }

  lemma TypesReachable()
    ensures Normalized("conversations") == Some(Conversations)
    ensures Normalized("knowledge_facts") == Some(KnowledgeFacts)
    ensures Normalized("policy") == Some(Policy)
  {
    LowerSpells("conversations", "conversations");
    LowerSpells("knowledge_facts", "knowledge_facts");
    LowerSpells("policy", "policy");
  }
}
