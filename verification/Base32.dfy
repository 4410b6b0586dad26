/**
 * Base32 without padding, section 6 of RFC 4648, as credential-security.ts computes it: a 32-bit accumulator that is
 * never masked, and a decoder that discards the trailing partial byte.  Byte and symbol strings are read as big-endian
 * numbers, which is the independent definition both loops are proved against.
 */
module Base32 {
  type Byte = b: nat | b < 256
  type Symbol = s: nat | s < 32

  const WORD: nat := 0x1_0000_0000

  // ----- numbers

  /** The number that a digit string denotes, most significant digit first. */
  function Number(radix: nat, digits: seq<nat>): nat {
    if digits == [] then 0 else Number(radix, digits[..|digits| - 1]) * radix + digits[|digits| - 1]
  }

  lemma NumberOfAppended(radix: nat, digits: seq<nat>, d: nat)
    ensures Number(radix, digits + [d]) == Number(radix, digits) * radix + d
  {
    assert (digits + [d])[..|digits|] == digits;
  }

  lemma DigitsAreQuotientAndRemainder(radix: nat, q: nat, d: nat, p: nat, e: nat)
    requires radix == 32 || radix == 256
    requires d < radix && e < radix && q * radix + d == p * radix + e
    ensures q == p && d == e
  {
    if radix == 32 {
      assert q * 32 + d == p * 32 + e;
    } else {
      assert q * 256 + d == p * 256 + e;
    }
  }

  predicate AreDigits(radix: nat, digits: seq<nat>) {
    forall i :: 0 <= i < |digits| ==> digits[i] < radix
  }

  /** A number has one digit string of a given length. */
  lemma {:induction false} NumberIsInjective(radix: nat, xs: seq<nat>, ys: seq<nat>)
    requires radix == 32 || radix == 256
    requires |xs| == |ys| && Number(radix, xs) == Number(radix, ys) && AreDigits(radix, xs) && AreDigits(radix, ys)
    ensures xs == ys
  {
    if xs != [] {
      var n := |xs| - 1;
      DigitsAreQuotientAndRemainder(radix, Number(radix, xs[..n]), xs[n], Number(radix, ys[..n]), ys[n]);
      NumberIsInjective(radix, xs[..n], ys[..n]);
      assert xs == xs[..n] + [xs[n]] && ys == ys[..n] + [ys[n]];
    }
  }

  function Pow2(n: nat): (p: nat)
    ensures p > 0
  {
    if n == 0 then 1 else 2 * Pow2(n - 1)
  }

  // ----- the two specifications

  /** Enough symbols for all bits, padded on the right with zero bits. */
  ghost predicate IsEncoding(bytes: seq<Byte>, symbols: seq<Symbol>) {
    var pad := 5 * |symbols| - 8 * |bytes|;
    0 <= pad < 5 && Number(32, symbols) == Number(256, bytes) * Pow2(pad)
  }

  /** All whole bytes; the bits left over are dropped. */
  ghost predicate IsDecoding(symbols: seq<Symbol>, bytes: seq<Byte>) {
    var rest := 5 * |symbols| - 8 * |bytes|;
    0 <= rest < 8 && Number(256, bytes) == Number(32, symbols) / Pow2(rest)
  }

  lemma DivideBack(n: nat, p: nat)
    requires p == 1 || p == 2 || p == 4 || p == 8 || p == 16
    ensures n * p / p == n
  {
    if p == 1 {
    } else if p == 2 {
    } else if p == 4 {
    } else if p == 8 {
    } else {
    }
  }

  /** Whatever decodes an encoding of some bytes is those bytes. */
  lemma DecodingUndoesEncoding(bytes: seq<Byte>, symbols: seq<Symbol>, decoded: seq<Byte>)
    requires IsEncoding(bytes, symbols) && IsDecoding(symbols, decoded)
    ensures decoded == bytes
  {
    var pad := 5 * |symbols| - 8 * |bytes|;
    SmallPowers();
    DivideBack(Number(256, bytes), Pow2(pad));
    NumberIsInjective(256, decoded, bytes);
  }

  lemma EncodingIsUnique(bytes: seq<Byte>, a: seq<Symbol>, b: seq<Symbol>)
    requires IsEncoding(bytes, a) && IsEncoding(bytes, b)
    ensures a == b
  {
    NumberIsInjective(32, a, b);
  }

  /** The decoder accepts more than the encoder produces; these are the symbol strings that encode what they decode to. */
  lemma CanonicalExactlyWhen(symbols: seq<Symbol>, decoded: seq<Byte>)
    requires IsDecoding(symbols, decoded)
    ensures var rest := 5 * |symbols| - 8 * |decoded|;
            IsEncoding(decoded, symbols) <==> rest < 5 && Number(32, symbols) % Pow2(rest) == 0
  {
    var rest := 5 * |symbols| - 8 * |decoded|;
    SmallPowers();
    QuotientTimes(Number(32, symbols), Pow2(rest));
  }

  lemma QuotientTimes(n: nat, p: nat)
    requires p == 1 || p == 2 || p == 4 || p == 8 || p == 16 || p == 32 || p == 64 || p == 128
    ensures n == n / p * p <==> n % p == 0
  {
    assert n == n / p * p + n % p;
  }

  // ----- words: the 32-bit accumulator as its bit pattern

  /** `value << n` */
  function ShiftLeft(value: nat, n: nat): nat {
    value * Pow2(n) % WORD
  }

  /** `value >>> n` */
  function ShiftRight(value: nat, n: nat): int {
    value / Pow2(n)
  }

  lemma SmallPowers()
    ensures Pow2(0) == 1 && Pow2(1) == 2 && Pow2(2) == 4 && Pow2(3) == 8 && Pow2(4) == 16 && Pow2(5) == 32 && Pow2(6) == 64
    ensures Pow2(7) == 128 && Pow2(8) == 256 && Pow2(9) == 512 && Pow2(10) == 1024 && Pow2(11) == 2048 && Pow2(12) == 4096
  {
    assert Pow2(4) == 16;
    assert Pow2(8) == 256;
  }

  /** Taking bits out of the low word is taking them out of the whole number. */
  lemma LowWordDigit(n: nat, shift: nat, radix: nat)
    requires shift <= 7 && (radix == 32 || radix == 256)
    ensures ShiftRight(n % WORD, shift) % radix == n / Pow2(shift) % radix
  {
    SmallPowers();
    LowWordDigitOf(n, Pow2(shift), radix);
  }

  lemma LowWordDigitOf(n: nat, p: nat, radix: nat)
    requires p == 1 || p == 2 || p == 4 || p == 8 || p == 16 || p == 32 || p == 64 || p == 128
    requires radix == 32 || radix == 256
    ensures n % WORD / p % radix == n / p % radix
  {
    var k := HighBitsAreMultiples(n / WORD, n % WORD, p);
    MultiplesDisappear(k, n % WORD / p);
  }

  lemma HighBitsAreMultiples(high: nat, low: nat, p: nat) returns (k: nat)
    requires p == 1 || p == 2 || p == 4 || p == 8 || p == 16 || p == 32 || p == 64 || p == 128
    ensures (WORD * high + low) / p == 256 * k + low / p
  {
    if p == 1 {
      k := 0x100_0000 * high;
    } else if p == 2 {
      k := 0x80_0000 * high;
    } else if p == 4 {
      k := 0x40_0000 * high;
    } else if p == 8 {
      k := 0x20_0000 * high;
    } else if p == 16 {
      k := 0x10_0000 * high;
    } else if p == 32 {
      k := 0x8_0000 * high;
    } else if p == 64 {
      k := 0x4_0000 * high;
    } else {
      k := 0x2_0000 * high;
    }
  }

  lemma MultiplesDisappear(k: nat, x: nat)
    ensures (256 * k + x) % 256 == x % 256 && (256 * k + x) % 32 == x % 32
  {
    assert (256 * k + x) / 256 == k + x / 256;
    assert (256 * k + x) / 32 == 8 * k + x / 32;
  }

  /** One more digit off the top: the quotient grows by the digit below it. */
  lemma NextDigit(n: nat, bits: nat, width: nat)
    requires (width == 5 && 5 <= bits <= 12) || (width == 8 && 8 <= bits <= 12)
    ensures n / Pow2(bits - width) == n / Pow2(bits) * Pow2(width) + n / Pow2(bits - width) % Pow2(width)
  {
    SmallPowers();
    if width == 5 {
      NextDigitOf(n, Pow2(bits - 5), 32);
    } else {
      NextDigitOf(n, Pow2(bits - 8), 256);
    }
  }

  lemma NextDigitOf(n: nat, p: nat, radix: nat)
    requires p == 1 || p == 2 || p == 4 || p == 8 || p == 16 || p == 32 || p == 64 || p == 128
    requires radix == 32 || radix == 256
    ensures p * radix > 0 && n / p == n / (p * radix) * radix + n / p % radix
  {
  }

  // ----- the encoder

  /** One byte into the accumulator: `(value << 8) | byte`, whose operands share no bit. */
  lemma ShiftInByte(n: nat, byte: Byte)
    ensures ShiftLeft(n % WORD, 8) + byte == (n * 256 + byte) % WORD
  {
    SmallPowers();
    var high, low := n / WORD, n % WORD;
    assert n * 256 == WORD * (256 * high) + 256 * low;
    ShiftedWord(low, 256 * high, 256, byte);
  }

  lemma RemainderIs(x: nat, q: nat, r: nat)
    requires r < WORD && x == WORD * q + r
    ensures x % WORD == r
  {
  }

  lemma ShiftedWord(low: nat, high: nat, radix: nat, digit: nat)
    requires low < WORD && digit < radix && (radix == 32 || radix == 256)
    ensures low * radix % WORD + digit == (WORD * high + low * radix + digit) % WORD
  {
    if radix == 32 {
      var q, r := low / 0x800_0000, 32 * (low % 0x800_0000);
      RemainderIs(low * 32, q, r);
      RemainderIs(WORD * high + low * 32 + digit, high + q, r + digit);
    } else {
      var q, r := low / 0x100_0000, 256 * (low % 0x100_0000);
      RemainderIs(low * 256, q, r);
      RemainderIs(WORD * high + low * 256 + digit, high + q, r + digit);
    }
  }

  lemma ShiftInSymbol(n: nat, symbol: Symbol)
    ensures ShiftLeft(n % WORD, 5) + symbol == (n * 32 + symbol) % WORD
  {
    SmallPowers();
    var high, low := n / WORD, n % WORD;
    assert n * 32 == WORD * (32 * high) + 32 * low;
    ShiftedWord(low, 32 * high, 32, symbol);
  }

  /** `symbols` are the quotient of the bytes read by the bits still pending. */
  method EncodeSymbols(bytes: seq<Byte>) returns (symbols: seq<Symbol>)
    ensures IsEncoding(bytes, symbols)
  {
    var bits: nat, value: nat := 0, 0;
    symbols := [];
    for i := 0 to |bytes|
      invariant bits < 5 && 8 * i == 5 * |symbols| + bits
      invariant value == Number(256, bytes[..i]) % WORD
      invariant Number(32, symbols) == Number(256, bytes[..i]) / Pow2(bits)
    {
      ghost var n := Number(256, bytes[..i]);
      ShiftInByte(n, bytes[i]);
      value := ShiftLeft(value, 8) + bytes[i];
      assert bytes[..i + 1] == bytes[..i] + [bytes[i]];
      NumberOfAppended(256, bytes[..i], bytes[i]);
      PendingByte(n, bits, bytes[i]);
      bits := bits + 8;
      while bits >= 5
        invariant bits <= 12 && 8 * (i + 1) == 5 * |symbols| + bits
        invariant Number(32, symbols) == Number(256, bytes[..i + 1]) / Pow2(bits)
      {
        LowWordDigit(Number(256, bytes[..i + 1]), bits - 5, 32);
        NextDigit(Number(256, bytes[..i + 1]), bits, 5);
        var symbol := ShiftRight(value, bits - 5) % 32;
        NumberOfAppended(32, symbols, symbol);
        SmallPowers();
        symbols := symbols + [symbol];
        bits := bits - 5;
      }
    }
    assert bytes[..|bytes|] == bytes;
    if bits > 0 {
      var symbol := ShiftLeft(value, 5 - bits) % 32;
      LastSymbol(Number(256, bytes), bits);
      NumberOfAppended(32, symbols, symbol);
      symbols := symbols + [symbol];
    } else {
      SmallPowers();
    }
  }

  lemma PendingByte(n: nat, bits: nat, byte: Byte)
    requires bits < 5
    ensures n / Pow2(bits) == (n * 256 + byte) / Pow2(bits + 8)
  {
    SmallPowers();
    if bits == 0 {
    } else if bits == 1 {
    } else if bits == 2 {
    } else if bits == 3 {
    } else {
    }
  }

  lemma LastSymbol(n: nat, bits: nat)
    requires 0 < bits < 5
    ensures n / Pow2(bits) * 32 + ShiftLeft(n % WORD, 5 - bits) % 32 == n * Pow2(5 - bits)
  {
    SmallPowers();
    LowBitsOfShift(n, Pow2(5 - bits));
    if bits == 1 {
      FiveBits(n * 16, n / 2, n % 2 * 16);
    } else if bits == 2 {
      FiveBits(n * 8, n / 4, n % 4 * 8);
    } else if bits == 3 {
      FiveBits(n * 4, n / 8, n % 8 * 4);
    } else {
      FiveBits(n * 2, n / 16, n % 16 * 2);
    }
  }

  lemma FiveBits(x: nat, q: nat, r: nat)
    requires r < 32 && x == 32 * q + r
    ensures x == q * 32 + x % 32
  {
  }

  /** What overflows the word is far above the five bits taken. */
  lemma LowBitsOfShift(n: nat, p: nat)
    requires p == 2 || p == 4 || p == 8 || p == 16
    ensures n % WORD * p % WORD % 32 == n * p % 32
  {
    var high, low := n / WORD, n % WORD;
    WordDisappears(low * p / WORD, low * p % WORD);
    if p == 2 {
      WordDisappears(2 * high, low * 2);
    } else if p == 4 {
      WordDisappears(4 * high, low * 4);
    } else if p == 8 {
      WordDisappears(8 * high, low * 8);
    } else {
      WordDisappears(16 * high, low * 16);
    }
  }

  lemma WordDisappears(k: nat, x: nat)
    ensures (WORD * k + x) % 32 == x % 32
  {
    MultiplesDisappear(0x100_0000 * k, x);
  }

  // ----- the decoder

  method DecodeSymbols(symbols: seq<Symbol>) returns (bytes: seq<Byte>)
    ensures IsDecoding(symbols, bytes)
  {
    var bits: nat, value: nat := 0, 0;
    bytes := [];
    for i := 0 to |symbols|
      invariant bits < 8 && 5 * i == 8 * |bytes| + bits
      invariant value == Number(32, symbols[..i]) % WORD
      invariant Number(256, bytes) == Number(32, symbols[..i]) / Pow2(bits)
    {
      ghost var n := Number(32, symbols[..i]);
      ShiftInSymbol(n, symbols[i]);
      value := ShiftLeft(value, 5) + symbols[i];
      assert symbols[..i + 1] == symbols[..i] + [symbols[i]];
      NumberOfAppended(32, symbols[..i], symbols[i]);
      PendingSymbol(n, bits, symbols[i]);
      bits := bits + 5;
      if bits >= 8 {
        LowWordDigit(Number(32, symbols[..i + 1]), bits - 8, 256);
        NextDigit(Number(32, symbols[..i + 1]), bits, 8);
        var byte := ShiftRight(value, bits - 8) % 256;
        NumberOfAppended(256, bytes, byte);
        SmallPowers();
        bytes := bytes + [byte];
        bits := bits - 8;
      }
    }
    assert symbols[..|symbols|] == symbols;
  }

  lemma PendingSymbol(n: nat, bits: nat, symbol: Symbol)
    requires bits < 8
    ensures n / Pow2(bits) == (n * 32 + symbol) / Pow2(bits + 5)
  {
    SmallPowers();
    if bits == 0 {
    } else if bits == 1 {
    } else if bits == 2 {
    } else if bits == 3 {
    } else if bits == 4 {
    } else if bits == 5 {
    } else if bits == 6 {
    } else {
    }
  }

  // ----- text

  /** Table 3 of RFC 4648. */
  function Letter(s: Symbol): (c: char)
    ensures InAlphabet(c) && IndexOf(c) == s
  {
    if s < 26 then 'A' + s as char else '2' + (s - 26) as char
  }

  const TABLE := "ABCDEFGHIJKLMNOPQRSTUVWXYZ234567"

  /** The symbols stand for the letters of the table, and for nothing else. */
  lemma LettersAreTheTable()
    ensures |TABLE| == 32 && forall s: Symbol :: Letter(s) == TABLE[s]
    ensures forall c: char :: InAlphabet(c) <==> c in TABLE
  {
    forall s: Symbol
      ensures Letter(s) == TABLE[s]
    {
    }
    forall c: char
      ensures InAlphabet(c) <==> c in TABLE
    {
      if InAlphabet(c) {
        assert Letter(IndexOf(c)) == c == TABLE[IndexOf(c)];
      }
    }
  }

  predicate InAlphabet(c: char) {
    'A' <= c <= 'Z' || '2' <= c <= '7'
  }

  function IndexOf(c: char): Symbol
    requires InAlphabet(c)
  {
    if 'A' <= c <= 'Z' then (c - 'A') as int else (c - '2') as int + 26
  }

  function Text(symbols: seq<Symbol>): string {
    seq(|symbols|, i requires 0 <= i < |symbols| => Letter(symbols[i]))
  }

  function UpperCase(c: char): char {
    if 'a' <= c <= 'z' then c - 'a' + 'A' else c
  }

  /** Upper case, without anything outside the alphabet; padding goes with the rest. */
  function Normalized(input: string): string {
    if input == [] then []
    else
      var c := UpperCase(input[0]);
      (if InAlphabet(c) then [c] else []) + Normalized(input[1..])
  }

  lemma {:induction false} NormalizedAppends(a: string, b: string)
    ensures Normalized(a + b) == Normalized(a) + Normalized(b)
  {
    hide UpperCase, InAlphabet;
    if a == [] {
      assert a + b == b;
    } else {
      assert (a + b)[1..] == a[1..] + b;
      NormalizedAppends(a[1..], b);
      var c := UpperCase(a[0]);
      var first := if InAlphabet(c) then [c] else [];
      assert Normalized(a + b) == first + Normalized(a[1..] + b);
    }
  }

  /** Of one character: letters of the table stay, small letters become them, everything else goes. */
  lemma NormalizedOne(c: char)
    ensures Normalized([c]) == if c in TABLE then [c] else if 'a' <= c <= 'z' then [TABLE[c as int - 97]] else []
  {
    assert [c][1..] == [];
    LettersAreTheTable();
    if 'a' <= c <= 'z' {
      assert UpperCase(c) == Letter(c as int - 97);
    }
  }

  /** The symbols that the decoder sees in a text. */
  function Symbols(text: string): (symbols: seq<Symbol>)
    ensures |symbols| == |Normalized(text)|
  {
    if text == [] then []
    else
      var c := UpperCase(text[0]);
      (if InAlphabet(c) then [IndexOf(c)] else []) + Symbols(text[1..])
  }

  lemma {:induction false} SymbolsOfText(symbols: seq<Symbol>)
    ensures Symbols(Text(symbols)) == symbols
  {
    if symbols != [] {
      assert Text(symbols)[1..] == Text(symbols[1..]);
      SymbolsOfText(symbols[1..]);
      assert symbols == [symbols[0]] + symbols[1..];
    }
  }

  method Encode(bytes: seq<Byte>) returns (output: string)
    ensures IsEncoding(bytes, Symbols(output)) && output == Text(Symbols(output))
  {
    var symbols := EncodeSymbols(bytes);
    SymbolsOfText(symbols);
    output := Text(symbols);
  }

  method Decode(input: string) returns (bytes: seq<Byte>)
    ensures IsDecoding(Symbols(input), bytes)
  {
    bytes := DecodeSymbols(Symbols(input));
  }

  /** Two texts that differ only in case, padding, spaces and other foreign characters are the same secret. */
  lemma {:induction false} NoiseIsIgnored(a: string, b: string)
    requires Normalized(a) == Normalized(b)
    ensures Symbols(a) == Symbols(b)
  {
    SymbolsOfNormalized(a);
    SymbolsOfNormalized(b);
  }

  lemma {:induction false} SymbolsOfNormalized(text: string)
    ensures Symbols(text) == Symbols(Normalized(text))
  {
    if text != [] {
      SymbolsOfNormalized(text[1..]);
      var c := UpperCase(text[0]);
      if InAlphabet(c) {
        assert Normalized(text) == [c] + Normalized(text[1..]);
        assert Normalized(text)[1..] == Normalized(text[1..]);
      } else {
        assert Normalized(text) == Normalized(text[1..]);
      }
    }
  }

  /**
   * The round trip: whatever normalizes to an encoding of some bytes, such as that encoding in lower case with spaces and
   * padding, decodes to those bytes.
   */
  lemma RoundTrip(bytes: seq<Byte>, output: string, typed: string, decoded: seq<Byte>)
    requires IsEncoding(bytes, Symbols(output)) && Normalized(typed) == Normalized(output) && IsDecoding(Symbols(typed), decoded)
    ensures decoded == bytes
  {
    NoiseIsIgnored(typed, output);
    DecodingUndoesEncoding(bytes, Symbols(typed), decoded);
  }
}
