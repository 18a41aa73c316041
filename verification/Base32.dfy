/** Base32 (section 6 of RFC 4648) as packages/shared/src/totp.ts computes it, with shifts that
    wrap at 32 bits. */
module Base32 {
  import opened Timed
  import opened Text
  import opened Arithmetic

  const WRAP: nat := 0x1_0000_0000

  type byte = x: int | 0 <= x < 256

  /** The alphabet: the letters from A to Z, then the digits from 2 to 7. */
  function Letter(i: nat): char
    requires i < 32
  {
    if i < 26 then 'A' + i as char else '2' + (i - 26) as char
  }

  /** The position of a character in the alphabet, or -1. */
  function IndexOf(c: char): (i: int)
    ensures -1 <= i < 32
    ensures forall k: nat :: k < 32 ==> (Letter(k) == c <==> i == k)
  {
    if 'A' <= c <= 'Z' then (c - 'A') as int else if '2' <= c <= '7' then (c - '2') as int + 26 else -1
  }

  const ALPHABET := "ABCDEFGHIJKLMNOPQRSTUVWXYZ234567"

  /** The letters are those of the alphabet in its order (section 6 of RFC 4648). */
  lemma LetterMeans(i: nat)
    requires i < |ALPHABET|
    ensures |ALPHABET| == 32 && Letter(i) == ALPHABET[i] && IndexOf(ALPHABET[i]) == i
  {
  }

  // ---------- Bits, most significant first ----------

  function Pow2(n: nat): (p: nat)
    ensures p > 0
  {
    if n == 0 then 1 else 2 * Pow2(n - 1)
  }

  predicate BitAt(v: nat, k: nat) {
    v / Pow2(k) % 2 == 1
  }

  /** The low n bits of v. */
  function Bits(v: nat, n: nat): (bits: seq<bool>)
    ensures |bits| == n
  {
    seq(n, i requires 0 <= i < n => BitAt(v, n - 1 - i))
  }

  lemma BitsStep(v: nat, n: nat)
    requires n > 0
    ensures Bits(v, n) == Bits(v / 2, n - 1) + [v % 2 == 1]
  {
    forall k: nat ensures BitAt(v, k + 1) == BitAt(v / 2, k) { HalfFirst(v, Pow2(k)); }
    assert BitAt(v, 0) == (v % 2 == 1);
  }

  lemma HalfFirst(v: nat, p: nat)
    requires p > 0
    ensures v / (2 * p) == v / 2 / p
  {
    var q, r := v / 2 / p, v / 2 % p;
    DivMod(v / 2, p);
    ModUnique(v, 2 * p, q, 2 * r + v % 2);
  }

  function Num(bits: seq<bool>): nat {
    if bits == [] then 0 else 2 * Num(bits[..|bits| - 1]) + (if bits[|bits| - 1] then 1 else 0)
  }

  function Zeros(n: nat): seq<bool> {
    seq(n, _ => false)
  }

  lemma {:induction false} BitsMod(v: nat, n: nat, m: nat)
    requires n <= m
    ensures Bits(v % Pow2(m), n) == Bits(v, n)
  {
    if n > 0 {
      HalfMod(v, Pow2(m - 1));
      BitsMod(v / 2, n - 1, m - 1);
      BitsStep(v, n);
      BitsStep(v % Pow2(m), n);
    }
  }

  lemma HalfMod(v: nat, p: nat)
    requires p > 0
    ensures v % (2 * p) / 2 == v / 2 % p && v % (2 * p) % 2 == v % 2
  {
    var q, r := v / 2 / p, v / 2 % p;
    assert v / 2 == q * p + r;
    var low := 2 * r + v % 2;
    assert v == q * (2 * p) + low && 0 <= low < 2 * p;
    ModUnique(v, 2 * p, q, low);
  }

  lemma {:induction false} BitsAppend(a: nat, n: nat, b: nat, k: nat)
    requires b < Pow2(k)
    ensures Bits(a * Pow2(k) + b, n + k) == Bits(a, n) + Bits(b, k)
    decreases k
  {
    if k == 0 {
      assert Bits(a, n) + [] == Bits(a, n);
    } else {
      var v := a * Pow2(k) + b;
      var half := a * Pow2(k - 1);
      assert v == 2 * half + b by { assert a * (2 * Pow2(k - 1)) == 2 * half; }
      assert v / 2 == half + b / 2 && v % 2 == b % 2;
      BitsAppend(a, n, b / 2, k - 1);
      BitsStep(v, n + k);
      BitsStep(b, k);
    }
  }

  lemma BitsSplit(v: nat, n: nat, k: nat)
    ensures v / Pow2(k) >= 0 && Bits(v, n + k) == Bits(v / Pow2(k), n) + Bits(v, k)
  {
    DivMod(v, Pow2(k));
    BitsAppend(v / Pow2(k), n, v % Pow2(k), k);
    BitsMod(v, k, k);
  }

  lemma {:induction false} NumOfBits(v: nat, n: nat)
    ensures Num(Bits(v, n)) == v % Pow2(n)
  {
    if n > 0 {
      NumOfBits(v / 2, n - 1);
      HalfMod(v, Pow2(n - 1));
      BitsStep(v, n);
      assert Bits(v, n)[..n - 1] == Bits(v / 2, n - 1);
    }
  }

  lemma {:induction false} BitsOfNum(bits: seq<bool>)
    ensures Num(bits) < Pow2(|bits|) && Bits(Num(bits), |bits|) == bits
  {
    if bits != [] {
      BitsOfNum(bits[..|bits| - 1]);
      BitsStep(Num(bits), |bits|);
      assert bits == bits[..|bits| - 1] + [bits[|bits| - 1]];
    }
  }

  // ---------- What the encoding is ----------

  function BitsOfBytes(bytes: seq<byte>): (bits: seq<bool>)
    ensures |bits| == 8 * |bytes|
  {
    if bytes == [] then [] else Bits(bytes[0], 8) + BitsOfBytes(bytes[1..])
  }

  function BitsOfSymbols(symbols: seq<nat>): (bits: seq<bool>)
    ensures |bits| == 5 * |symbols|
  {
    if symbols == [] then [] else Bits(symbols[0], 5) + BitsOfSymbols(symbols[1..])
  }

  /** Groups of five bits, the last one filled up with zeros. */
  function Symbols(bits: seq<bool>): seq<nat> {
    if bits == [] then []
    else if |bits| < 5 then [Num(bits + Zeros(5 - |bits|))]
    else [Num(bits[..5])] + Symbols(bits[5..])
  }

  /** Groups of eight bits; what is left over is dropped. */
  function Octets(bits: seq<bool>): seq<byte> {
    if |bits| < 8 then []
    else
      BitsOfNum(bits[..8]);
      PowByte(8);
      [Num(bits[..8])] + Octets(bits[8..])
  }

  function Spell(symbols: seq<nat>): string {
    if symbols == [] then "" else [Letter(symbols[0] % 32)] + Spell(symbols[1..])
  }

  /** None when some character is not in the alphabet. */
  function Read(text: string): (symbols: Option<seq<nat>>)
    ensures symbols.Some? ==> |symbols.value| == |text|
  {
    if text == "" then Some([])
    else
      var i := IndexOf(text[0]);
      var rest := Read(text[1..]);
      if i < 0 || rest.None? then None else Some([i] + rest.value)
  }

  predicate IsSpace(c: char) {
    '\U{09}' <= c <= '\U{0D}' || c == ' ' || c == '\U{A0}' || c == '\U{1680}' || '\U{2000}' <= c <= '\U{200A}'
    || c == '\U{2028}' || c == '\U{2029}' || c == '\U{202F}' || c == '\U{205F}' || c == '\U{3000}' || c == '\U{FEFF}'
  }

  function WithoutPadding(s: string): string {
    if s != "" && s[|s| - 1] == '=' then WithoutPadding(s[..|s| - 1]) else s
  }

  function WithoutSpaces(s: string): string {
    if s == "" then "" else (if IsSpace(s[0]) then "" else [s[0]]) + WithoutSpaces(s[1..])
  }

  function Clean(text: string): string {
    WithoutSpaces(WithoutPadding(Upper(text)))
  }

  function Encode(bytes: seq<byte>): string {
    Spell(Symbols(BitsOfBytes(bytes)))
  }

  function Decode(text: string): Option<seq<byte>> {
    DecodeClean(Clean(text))
  }

  function DecodeClean(text: string): Option<seq<byte>> {
    Resume(text, 0, 0)
  }

  /** What is decoded from pending bits and the rest of the text. */
  function Resume(text: string, value: nat, bits: nat): Option<seq<byte>> {
    var symbols := Read(text);
    if symbols.None? then None else Some(Octets(Bits(value, bits) + BitsOfSymbols(symbols.value)))
  }

  function Prepend(bytes: seq<byte>, rest: Option<seq<byte>>): Option<seq<byte>> {
    if rest.None? then None else Some(bytes + rest.value)
  }

  // ---------- The loops ----------

  /** A left shift of a 32-bit word. */
  function ShiftLeft(v: nat, n: nat): (r: nat)
    ensures r < WRAP
  {
    v * Pow2(n) % WRAP
  }

  /** An unsigned right shift. */
  function ShiftRight(v: nat, n: nat): nat {
    if n == 0 then v else ShiftRight(v / 2, n - 1)
  }

  lemma {:induction false} ShiftRightDivides(v: nat, n: nat)
    ensures v / Pow2(n) >= 0 && ShiftRight(v, n) == v / Pow2(n)
  {
    DivMod(v, Pow2(n));
    if n > 0 {
      ShiftRightDivides(v / 2, n - 1);
      HalfFirst(v, Pow2(n - 1));
    }
  }

  /** Shifting in a group of bits appends it to the pending ones, although the word wraps. */
  lemma ShiftIn(v: nat, pending: nat, group: nat, width: nat)
    requires group < Pow2(width) && pending + width <= 32
    ensures Bits(ShiftLeft(v, width) + group, pending + width) == Bits(v, pending) + Bits(group, width)
  {
    var keep := 32 - width;
    PowWord(32);
    PowAdd(keep, width);
    ShiftDropsTop(v, Pow2(keep), Pow2(width));
    BitsAppend(v % Pow2(keep), pending, group, width);
    BitsMod(v, pending, keep);
  }

  lemma PowWord(n: nat)
    requires n == 32
    ensures Pow2(n) == WRAP
  {
    PowByte(n - 24);
    PowAdd(n - 24, n - 24);
    PowAdd(n - 16, n - 16);
  }

  lemma PowByte(n: nat)
    requires n == 8
    ensures Pow2(n) == 256 && Pow2(n - 3) == 32
  {
    assert Pow2(n - 4) == 16 by { assert Pow2(n - 6) == 4; }
  }

  lemma ShiftDropsTop(v: nat, a: nat, b: nat)
    requires a > 0 && b > 0
    ensures v * b % (a * b) == v % a * b
  {
    var q, r := v / a, v % a;
    DivMod(v, a);
    AtLeast(a - r, b);
    Distribute(a, -r, b);
    Distribute(q * a, r, b);
    Associate(q, a, b);
    ModUnique(v * b, a * b, q, r * b);
  }

  lemma {:induction false} PowAdd(m: nat, n: nat)
    ensures Pow2(m + n) == Pow2(m) * Pow2(n)
  {
    if m > 0 { PowAdd(m - 1, n); }
  }

  /** What is still to be written for these bits. */
  function Written(bits: seq<bool>): string {
    Spell(Symbols(bits))
  }

  method Base32Encode(bytes: seq<byte>) returns (out: string)
    ensures out == Encode(bytes)
  {
    var bits: nat, value: nat := 0, 0;
    out := "";
    var i := 0;
    WritingStarts(bytes);
    while i < |bytes|
      invariant 0 <= i <= |bytes| && 0 <= bits < 5
      invariant Encode(bytes) == out + Written(Bits(value, bits) + BitsOfBytes(bytes[i..]))
    {
      ghost var rest := BitsOfBytes(bytes[i + 1..]);
      ByteIn(value, bits, bytes, i);
      value := ShiftLeft(value, 8) + bytes[i];
      bits := bits + 8;
      while bits >= 5
        invariant 0 <= bits < 13
        invariant Encode(bytes) == out + Written(Bits(value, bits) + rest)
      {
        SymbolOut(out, value, bits, rest);
        out := out + [Letter(ShiftRight(value, bits - 5) % 32)];
        bits := bits - 5;
      }
      i := i + 1;
    }
    WritingEnds(out, bytes[i..], value, bits);
    if bits > 0 {
      out := out + [Letter(ShiftLeft(value, 5 - bits) % 32)];
    }
  }

  lemma WritingStarts(bytes: seq<byte>)
    ensures Encode(bytes) == "" + Written(Bits(0, 0) + BitsOfBytes(bytes[0..]))
  {
    assert bytes[0..] == bytes && Bits(0, 0) + BitsOfBytes(bytes) == BitsOfBytes(bytes);
  }

  lemma SymbolOut(out: string, value: nat, bits: nat, rest: seq<bool>)
    requires bits >= 5
    ensures out + Written(Bits(value, bits) + rest)
         == out + [Letter(ShiftRight(value, bits - 5) % 32)] + Written(Bits(value, bits - 5) + rest)
  {
    EmitSymbol(value, bits, rest);
  }

  lemma WritingEnds(out: string, left: seq<byte>, value: nat, bits: nat)
    requires left == [] && bits < 5
    ensures out + Written(Bits(value, bits) + BitsOfBytes(left))
         == if bits == 0 then out else out + [Letter(ShiftLeft(value, 5 - bits) % 32)]
  {
    assert Bits(value, bits) + BitsOfBytes(left) == Bits(value, bits);
    if bits > 0 { LastSymbol(value, bits); } else { assert out + "" == out; }
  }

  lemma ByteIn(value: nat, bits: nat, bytes: seq<byte>, i: nat)
    requires i < |bytes| && bits < 5
    ensures Bits(value, bits) + BitsOfBytes(bytes[i..])
         == Bits(ShiftLeft(value, 8) + bytes[i], bits + 8) + BitsOfBytes(bytes[i + 1..])
  {
    assert bytes[i..][1..] == bytes[i + 1..];
    PowByte(8);
    ShiftIn(value, bits, bytes[i], 8);
  }

  /** The first group of the pending bits, and what follows it. */
  lemma Group(v: nat, n: nat, width: nat, rest: seq<bool>)
    requires width <= n
    ensures Num((Bits(v, n) + rest)[..width]) == ShiftRight(v, n - width) % Pow2(width)
    ensures (Bits(v, n) + rest)[width..] == Bits(v, n - width) + rest
  {
    BitsSplit(v, width, n - width);
    ShiftRightDivides(v, n - width);
    assert (Bits(v, n) + rest)[..width] == Bits(ShiftRight(v, n - width), width);
    NumOfBits(ShiftRight(v, n - width), width);
  }

  lemma EmitSymbol(value: nat, bits: nat, rest: seq<bool>)
    requires bits >= 5
    ensures Written(Bits(value, bits) + rest)
         == [Letter(ShiftRight(value, bits - 5) % 32)] + Written(Bits(value, bits - 5) + rest)
  {
    Group(value, bits, 5, rest);
    PowByte(8);
    FirstWritten(Bits(value, bits) + rest);
  }

  lemma FirstWritten(bits: seq<bool>)
    requires |bits| >= 5
    ensures Written(bits) == [Letter(Num(bits[..5]) % 32)] + Written(bits[5..])
  {
    SpellFirst(Num(bits[..5]), Symbols(bits[5..]));
  }

  lemma SpellFirst(symbol: nat, rest: seq<nat>)
    ensures Spell([symbol] + rest) == [Letter(symbol % 32)] + Spell(rest)
  {
    assert ([symbol] + rest)[1..] == rest;
  }

  lemma LastSymbol(value: nat, bits: nat)
    requires 0 < bits < 5
    ensures Spell(Symbols(Bits(value, bits))) == [Letter(ShiftLeft(value, 5 - bits) % 32)]
  {
    PowByte(8);
    LastGroup(value, bits, 5);
    ShortSymbols(Bits(value, bits));
    SpellOne(Num(Bits(value, bits) + Zeros(5 - bits)));
  }

  lemma ShortSymbols(bits: seq<bool>)
    requires 0 < |bits| < 5
    ensures Symbols(bits) == [Num(bits + Zeros(5 - |bits|))]
  {
  }

  lemma SpellOne(symbol: nat)
    ensures Spell([symbol]) == [Letter(symbol % 32)]
  {
    assert [symbol][1..] == [];
  }

  lemma LastGroup(value: nat, bits: nat, width: nat)
    requires bits <= width <= 32
    ensures Num(Bits(value, bits) + Zeros(width - bits)) == ShiftLeft(value, width - bits) % Pow2(width)
  {
    ZeroBits(width - bits);
    ShiftIn(value, bits, 0, width - bits);
    NumOf(ShiftLeft(value, width - bits), Bits(value, bits) + Zeros(width - bits), width);
  }

  lemma NumOf(v: nat, bits: seq<bool>, width: nat)
    requires Bits(v, width) == bits
    ensures Num(bits) == v % Pow2(width)
  {
    NumOfBits(v, width);
  }

  lemma {:induction false} ZeroBits(n: nat)
    ensures Bits(0, n) == Zeros(n)
  {
    if n > 0 {
      ZeroBits(n - 1);
      BitsStep(0, n);
    }
  }

  /** None where the source throws. */
  method Base32Decode(text: string) returns (out: Option<seq<byte>>)
    ensures out == Decode(text)
  {
    var clean := Clean(text);
    var bits: nat, value: nat := 0, 0;
    var bytes: seq<byte> := [];
    var i := 0;
    ghost var whole := Decode(text);
    DecodingStarts(text, clean);
    while i < |clean|
      invariant 0 <= i <= |clean| && 0 <= bits < 8
      invariant whole == Prepend(bytes, Resume(clean[i..], value, bits))
    {
      var index := IndexOf(clean[i]);
      CharacterIn(whole, clean, i, bytes, value, bits);
      if index < 0 {
        return None;
      }
      value := ShiftLeft(value, 5) + index;
      bits := bits + 5;
      i := i + 1;
      if bits >= 8 {
        bits := bits - 8;
        bytes := bytes + [ShiftRight(value, bits) % 256];
        assert whole == Prepend(bytes, Resume(clean[i..], value, bits));
      } else {
        assert whole == Prepend(bytes, Resume(clean[i..], value, bits));
      }
    }
    ResumeEnds(clean[i..], bytes, value, bits);
    return Some(bytes);
  }

  lemma DecodingStarts(text: string, clean: string)
    requires clean == Clean(text)
    ensures Decode(text) == Prepend([], Resume(clean[0..], 0, 0))
  {
    assert clean[0..] == clean;
    PrependNothing(Resume(clean, 0, 0));
  }

  lemma PrependNothing(rest: Option<seq<byte>>)
    ensures Prepend([], rest) == rest
  {
    if rest.Some? { assert [] + rest.value == rest.value; }
  }

  /** One character is read, and a byte is given as soon as eight bits are pending. */
  lemma CharacterIn(whole: Option<seq<byte>>, text: string, i: nat, bytes: seq<byte>, value: nat, bits: nat)
    requires i < |text| && bits < 8 && whole == Prepend(bytes, Resume(text[i..], value, bits))
    ensures IndexOf(text[i]) < 0 ==> whole == None
    ensures IndexOf(text[i]) >= 0 ==>
              var value' := ShiftLeft(value, 5) + IndexOf(text[i]);
              whole == if bits + 5 < 8 then Prepend(bytes, Resume(text[i + 1..], value', bits + 5))
                       else Prepend(bytes + [ShiftRight(value', bits - 3) % 256],
                                    Resume(text[i + 1..], value', bits - 3))
  {
    ResumeOn(text, i, value, bits);
    if IndexOf(text[i]) >= 0 && bits + 5 >= 8 {
      ResumeEmits(text[i + 1..], bytes, ShiftLeft(value, 5) + IndexOf(text[i]), bits + 5);
    }
  }

  /** The next character is shifted in, unless it is foreign. */
  lemma ResumeOn(text: string, i: nat, value: nat, bits: nat)
    requires i < |text| && bits < 8
    ensures Resume(text[i..], value, bits)
         == if IndexOf(text[i]) < 0 then None
            else Resume(text[i + 1..], ShiftLeft(value, 5) + IndexOf(text[i]), bits + 5)
  {
    assert text[i..][0] == text[i] && text[i..][1..] == text[i + 1..];
    if IndexOf(text[i]) >= 0 { SymbolIn(value, bits, text, i); }
  }

  /** Eight pending bits or more give a byte. */
  lemma ResumeEmits(text: string, bytes: seq<byte>, value: nat, bits: nat)
    requires bits >= 8
    ensures Prepend(bytes, Resume(text, value, bits))
         == Prepend(bytes + [ShiftRight(value, bits - 8) % 256], Resume(text, value, bits - 8))
  {
    if Read(text).Some? {
      var rest := BitsOfSymbols(Read(text).value);
      EmitOctet(value, bits, rest);
      Regroup(bytes, ShiftRight(value, bits - 8) % 256, Octets(Bits(value, bits - 8) + rest));
    }
  }

  lemma Regroup(bytes: seq<byte>, b: byte, rest: seq<byte>)
    ensures bytes + ([b] + rest) == bytes + [b] + rest
  {
  }

  /** Fewer than eight bits are left over and dropped. */
  lemma ResumeEnds(text: string, bytes: seq<byte>, value: nat, bits: nat)
    requires text == "" && bits < 8
    ensures Prepend(bytes, Resume(text, value, bits)) == Some(bytes)
  {
    assert Bits(value, bits) + BitsOfSymbols([]) == Bits(value, bits);
    assert bytes + Octets(Bits(value, bits)) == bytes;
  }

  lemma SymbolIn(value: nat, bits: nat, text: string, i: nat)
    requires i < |text| && bits < 8 && IndexOf(text[i]) >= 0
    ensures Read(text[i..]).Some? <==> Read(text[i + 1..]).Some?
    ensures Read(text[i..]).Some? ==>
              Bits(value, bits) + BitsOfSymbols(Read(text[i..]).value)
              == Bits(ShiftLeft(value, 5) + IndexOf(text[i]), bits + 5) + BitsOfSymbols(Read(text[i + 1..]).value)
  {
    assert text[i..][1..] == text[i + 1..];
    PowByte(8);
    ShiftIn(value, bits, IndexOf(text[i]), 5);
    if Read(text[i..]).Some? {
      assert Read(text[i..]).value == [IndexOf(text[i])] + Read(text[i + 1..]).value;
      assert Read(text[i..]).value[1..] == Read(text[i + 1..]).value;
    }
  }

  lemma EmitOctet(value: nat, bits: nat, rest: seq<bool>)
    requires bits >= 8
    ensures Octets(Bits(value, bits) + rest) == [ShiftRight(value, bits - 8) % 256]
        + Octets(Bits(value, bits - 8) + rest)
  {
    Group(value, bits, 8, rest);
    PowByte(8);
  }

  // ---------- Round trip ----------

  lemma {:induction false} SymbolsSound(bits: seq<bool>)
    ensures forall i :: 0 <= i < |Symbols(bits)| ==> Symbols(bits)[i] < 32
    ensures |Symbols(bits)| == (|bits| + 4) / 5
    ensures BitsOfSymbols(Symbols(bits)) == bits + Zeros(5 * |Symbols(bits)| - |bits|)
  {
    if bits == [] {
    } else if |bits| < 5 {
      FullGroup(bits + Zeros(5 - |bits|), []);
      assert BitsOfSymbols([]) == [];
    } else {
      FullGroup(bits[..5], Symbols(bits[5..]));
      SymbolsSound(bits[5..]);
      assert bits == bits[..5] + bits[5..];
    }
  }

  lemma FullGroup(group: seq<bool>, symbols: seq<nat>)
    requires |group| == 5
    ensures Num(group) < 32 && BitsOfSymbols([Num(group)] + symbols) == group + BitsOfSymbols(symbols)
  {
    PowByte(8);
    BitsOfNum(group);
    assert ([Num(group)] + symbols)[1..] == symbols;
  }

  lemma {:induction false} OctetsOfBytes(bytes: seq<byte>, rest: seq<bool>)
    requires |rest| < 8
    ensures Octets(BitsOfBytes(bytes) + rest) == bytes
  {
    if bytes == [] {
      assert [] + rest == rest;
    } else {
      var tail := BitsOfBytes(bytes[1..]) + rest;
      assert BitsOfBytes(bytes) + rest == Bits(bytes[0], 8) + tail;
      OctetOfByte(bytes[0], tail);
      OctetsOfBytes(bytes[1..], rest);
    }
  }

  lemma OctetOfByte(b: byte, rest: seq<bool>)
    ensures Octets(Bits(b, 8) + rest) == [b] + Octets(rest)
  {
    EmitOctet(b, 8, rest);
    assert ShiftRight(b, 0) == b;
    assert Bits(b, 0) + rest == rest;
  }

  /** Upper-case letters and the digits from 2 to 7. */
  predicate Plain(text: string) {
    forall i :: 0 <= i < |text| ==> IndexOf(text[i]) >= 0
  }

  lemma {:induction false} ReadSpelled(symbols: seq<nat>)
    requires forall i :: 0 <= i < |symbols| ==> symbols[i] < 32
    ensures Plain(Spell(symbols)) && Read(Spell(symbols)) == Some(symbols)
  {
    if symbols != [] {
      ReadSpelled(symbols[1..]);
      assert Spell(symbols)[1..] == Spell(symbols[1..]);
      assert symbols == [symbols[0]] + symbols[1..];
    }
  }

  lemma PlainChar(c: char)
    requires IndexOf(c) >= 0
    ensures UpperChar(c) == c && UpperChar(LowerChar(c)) == c && !IsSpace(c) && c != '='
  {
  }

  /** Spelling in lower case, and padding, make no difference. */
  lemma {:induction false} CleanPlain(text: string)
    requires Plain(text)
    ensures Upper(text) == text && Upper(Lower(text)) == text && WithoutSpaces(text) == text
    ensures text != "" ==> text[|text| - 1] != '='
  {
    if text != "" {
      PlainChar(text[0]);
      PlainChar(text[|text| - 1]);
      CleanPlain(text[1..]);
    }
  }

  function Padding(n: nat): string {
    if n == 0 then "" else Padding(n - 1) + "="
  }

  lemma {:induction false} PaddingDropped(text: string, n: nat)
    ensures WithoutPadding(text + Padding(n)) == WithoutPadding(text)
  {
    if n == 0 {
      assert text + "" == text;
    } else {
      assert (text + Padding(n))[..|text + Padding(n)| - 1] == text + Padding(n - 1);
      PaddingDropped(text, n - 1);
    }
  }

  lemma {:induction false} UpperPadded(text: string, n: nat)
    ensures Upper(text + Padding(n)) == Upper(text) + Padding(n)
    decreases |text|, n
  {
    if text != "" {
      assert (text + Padding(n))[1..] == text[1..] + Padding(n);
      UpperPadded(text[1..], n);
    } else if n > 0 {
      UpperOfPadding(n);
      assert "" + Padding(n) == Padding(n);
    }
  }

  lemma {:induction false} UpperOfPadding(n: nat)
    ensures Upper(Padding(n)) == Padding(n)
  {
    if n > 0 {
      UpperOfPadding(n - 1);
      UpperAppend(Padding(n - 1), "=");
    }
  }

  lemma {:induction false} UpperAppend(a: string, b: string)
    ensures Upper(a + b) == Upper(a) + Upper(b)
  {
    if a == "" {
      assert a + b == b;
    } else {
      assert (a + b)[1..] == a[1..] + b;
      UpperAppend(a[1..], b);
    }
  }

  /** Every sequence of bytes is decoded from its encoding, also in lower case and with any
      padding. */
  lemma RoundTrip(bytes: seq<byte>, padding: nat)
    ensures Decode(Encode(bytes)) == Some(bytes)
    ensures Decode(Lower(Encode(bytes)) + Padding(padding)) == Some(bytes)
  {
    var bits := BitsOfBytes(bytes);
    var symbols := Symbols(bits);
    SymbolsSound(bits);
    ReadSpelled(symbols);
    var text := Spell(symbols);
    CleanPlain(text);
    UpperPadded(Lower(text), padding);
    PaddingDropped(text, padding);
    assert WithoutPadding(text) == text;
    assert Bits(0, 0) + BitsOfSymbols(symbols) == BitsOfSymbols(symbols);
    OctetsOfBytes(bytes, Zeros(5 * |symbols| - |bits|));
  }

  /** Eight bits a byte, five a character, rounded up. */
  lemma EncodedLength(bytes: seq<byte>)
    ensures |Encode(bytes)| == (8 * |bytes| + 4) / 5 && Plain(Encode(bytes))
  {
    SymbolsSound(BitsOfBytes(bytes));
    ReadSpelled(Symbols(BitsOfBytes(bytes)));
  }
}
