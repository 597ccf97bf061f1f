/**
  Crockford base32 over a 32-bit accumulator that is never masked: its high bits are old digits and
  bytes, and in the end they fall off. What the loops compute is stated in bits, most significant first.
 */
module Base32 {
  import opened Common

  type Bits = seq<bool>
  type Digit = d: int | 0 <= d < 32

  const U32: nat := 0x1_0000_0000
  const CROCKFORD: string := "0123456789ABCDEFGHJKMNPQRSTVWXYZ"

  // ---- bits ----

  function Pow2(n: nat): (p: nat)
    ensures p > 0
  {
    if n == 0 then 1 else 2 * Pow2(n - 1)
  }

  /** The n low bits of a number, the highest of them first. */
  function BitsOf(v: nat, n: nat): (b: Bits)
    ensures |b| == n
  {
    if n == 0 then [] else BitsOf(v / 2, n - 1) + [v % 2 == 1]
  }

  function ValueOf(b: Bits): nat {
    if b == [] then 0 else 2 * ValueOf(b[..|b| - 1]) + if b[|b| - 1] then 1 else 0
  }

  /** Numbers of one width, written out one after the other. */
  function Run(width: nat, ns: seq<nat>): (b: Bits)
    ensures |b| == width * |ns|
  {
    if ns == [] then [] else Run(width, ns[..|ns| - 1]) + BitsOf(ns[|ns| - 1], width)
  }

  function Zeros(n: nat): Bits {
    seq(n, _ => false)
  }

  lemma {:induction false} ValueOfBits(v: nat, n: nat)
    ensures ValueOf(BitsOf(v, n)) == v % Pow2(n)
  {
    if n > 0 {
      ValueOfBits(v / 2, n - 1);
      var b := BitsOf(v, n);
      assert b[..n - 1] == BitsOf(v / 2, n - 1);
      Halve(v, Pow2(n - 1));
    }
  }

  lemma Halve(v: nat, p: nat)
    requires p > 0
    ensures 2 * (v / 2 % p) + v % 2 == v % (2 * p)
  {
    var q, r := v / 2 / p, v / 2 % p;
    assert v / 2 == q * p + r;
    assert q * (2 * p) == 2 * (q * p);
    Remainder(v, 2 * p, q, 2 * r + v % 2);
  }

  lemma Remainder(v: nat, p: nat, q: nat, r: nat)
    requires p > 0 && v == q * p + r && r < p
    ensures v % p == r
  {
    var k := v / p;
    assert v == k * p + v % p;
    Multiples(k, q, p);
    Multiples(q, k, p);
  }

  lemma Multiples(a: nat, b: nat, p: nat)
    ensures a < b ==> a * p + p <= b * p
  {
    if a < b {
      MultiplyMonotone(a + 1, b, p);
      assert (a + 1) * p == a * p + p;
    }
  }

  /** The unsigned shift to the right. */
  function ShiftRight(v: nat, n: nat): nat {
    if n == 0 then v else ShiftRight(v / 2, n - 1)
  }

  /** The higher bits, then the lower ones. */
  lemma {:induction false} Split(v: nat, a: nat, b: nat)
    ensures BitsOf(v, a + b) == BitsOf(ShiftRight(v, b), a) + BitsOf(v, b)
  {
    if b == 0 {
      assert BitsOf(v, a) + [] == BitsOf(v, a);
    } else {
      Split(v / 2, a, b - 1);
      var high, low, last := BitsOf(ShiftRight(v, b), a), BitsOf(v / 2, b - 1), [v % 2 == 1];
      assert BitsOf(v, a + b) == BitsOf(v / 2, a + b - 1) + last;
      assert (high + low) + last == high + (low + last);
    }
  }

  /** What was shifted in comes out again. */
  lemma {:induction false} ShiftBack(value: nat, w: nat, n: nat)
    requires w < Pow2(n)
    ensures ShiftRight(value * Pow2(n) + w, n) == value
  {
    if n > 0 {
      var p := Pow2(n - 1);
      assert value * Pow2(n) == 2 * (value * p);
      assert (value * Pow2(n) + w) / 2 == value * p + w / 2;
      ShiftBack(value, w / 2, n - 1);
    }
  }

  /** Dropping high bits leaves the low ones alone. */
  lemma {:induction false} Low(v: nat, m: nat, n: nat)
    requires n <= m
    ensures BitsOf(v % Pow2(m), n) == BitsOf(v, n)
  {
    if n > 0 {
      Halve(v, Pow2(m - 1));
      var w := v % Pow2(m);
      assert w == 2 * (v / 2 % Pow2(m - 1)) + v % 2;
      assert w / 2 == v / 2 % Pow2(m - 1) && w % 2 == v % 2;
      Low(v / 2, m - 1, n - 1);
    }
  }

  lemma PowersUsed()
    ensures Pow2(1) == 2 && Pow2(2) == 4 && Pow2(3) == 8 && Pow2(4) == 16 && Pow2(5) == 32 && Pow2(8) == 256
    ensures Pow2(32) == U32
  {
    assert Pow2(8) == 16 * Pow2(4);
    assert Pow2(16) == 256 * Pow2(8) by {
      assert Pow2(12) == 16 * Pow2(8);
    }
    assert Pow2(24) == 256 * Pow2(16) by {
      assert Pow2(20) == 16 * Pow2(16);
    }
    assert Pow2(32) == 256 * Pow2(24) by {
      assert Pow2(28) == 16 * Pow2(24);
    }
  }

  /** Shifting new bits in below: all that matters of the accumulator is its low bits. */
  lemma Push(value: nat, bits: nat, w: nat, width: nat)
    requires w < Pow2(width) && bits + width <= 32
    ensures BitsOf((value * Pow2(width) + w) % U32, bits + width) == BitsOf(value, bits) + BitsOf(w, width)
  {
    hide BitsOf, Pow2;
    PowersUsed();
    var v := value * Pow2(width) + w;
    Low(v, 32, bits + width);
    Split(v, bits, width);
    ShiftBack(value, w, width);
    Remainder(v, Pow2(width), value, w);
    Low(v, width, width);
  }

  /** Taking the highest of the bits held. */
  lemma Top(value: nat, bits: nat, width: nat)
    requires width <= bits
    ensures BitsOf(value, bits)
            == BitsOf(ShiftRight(value, bits - width) % Pow2(width), width) + BitsOf(value, bits - width)
  {
    hide BitsOf, Pow2;
    Split(value, width, bits - width);
    Low(ShiftRight(value, bits - width), width, width);
  }

  lemma {:induction false} ZeroBits(n: nat)
    ensures BitsOf(0, n) == Zeros(n)
  {
    if n > 0 {
      ZeroBits(n - 1);
    }
  }

  lemma RunMore(width: nat, ns: seq<nat>, n: nat)
    ensures Run(width, ns + [n]) == Run(width, ns) + BitsOf(n, width)
  {
    assert (ns + [n])[..|ns|] == ns;
  }

  /** Numbers that fit the width can be read back. */
  lemma {:induction false} RunFaithful(width: nat, a: seq<nat>, b: seq<nat>)
    requires width > 0 && Run(width, a) == Run(width, b)
    requires (forall i :: 0 <= i < |a| ==> a[i] < Pow2(width)) && (forall i :: 0 <= i < |b| ==> b[i] < Pow2(width))
    ensures a == b
  {
    hide BitsOf, Pow2;
    SameLength(width, |a|, |b|);
    if a != [] {
      var x, y := a[|a| - 1], b[|b| - 1];
      var fa, fb := a[..|a| - 1], b[..|b| - 1];
      var at := width * |fa|;
      assert Run(width, a)[..at] == Run(width, fa) && Run(width, a)[at..] == BitsOf(x, width);
      assert Run(width, b)[..at] == Run(width, fb) && Run(width, b)[at..] == BitsOf(y, width);
      ValueOfBits(x, width);
      ValueOfBits(y, width);
      Small(x, Pow2(width));
      Small(y, Pow2(width));
      RunFaithful(width, fa, fb);
      assert a == fa + [x] && b == fb + [y];
    }
  }

  lemma Small(x: nat, p: nat)
    requires x < p
    ensures x % p == x
  {
  }

  lemma SameLength(width: nat, m: nat, n: nat)
    requires width > 0 && width * m == width * n
    ensures m == n
  {
    Multiples(m, n, width);
    Multiples(n, m, width);
  }

  // ---- encoding ----

  function Spell(ds: seq<Digit>): (t: string)
    ensures |t| == |ds|
  {
    seq(|ds|, i requires 0 <= i < |ds| => CROCKFORD[ds[i]])
  }

  /** These digits are the bytes' bits, filled up with zeros to whole digits. */
  ghost predicate Encodes(ds: seq<Digit>, bytes: Bytes) {
    && 8 * |bytes| <= 5 * |ds| < 8 * |bytes| + 5
    && Run(5, ds) == Run(8, bytes) + Zeros(5 * |ds| - 8 * |bytes|)
  }

  lemma EmitDigit(ds: seq<Digit>, digit: Digit, value: nat, bits: nat, all: Bits)
    requires bits >= 5 && digit == ShiftRight(value, bits - 5) % 32
    requires Run(5, ds) + BitsOf(value, bits) == all
    ensures Run(5, ds + [digit]) + BitsOf(value, bits - 5) == all
  {
    hide BitsOf, Pow2, Run;
    PowersUsed();
    Top(value, bits, 5);
    RunMore(5, ds, digit);
    assert (Run(5, ds) + BitsOf(digit, 5)) + BitsOf(value, bits - 5)
      == Run(5, ds) + (BitsOf(digit, 5) + BitsOf(value, bits - 5));
  }

  lemma TakeByte(ds: seq<Digit>, value: nat, bits: nat, bytes: Bytes, byte: Byte)
    requires bits <= 24 && Run(5, ds) + BitsOf(value, bits) == Run(8, bytes)
    ensures Run(5, ds) + BitsOf((value * 256 + byte) % U32, bits + 8) == Run(8, bytes + [byte])
  {
    hide BitsOf, Pow2, Run;
    PowersUsed();
    Push(value, bits, byte, 8);
    RunMore(8, bytes, byte);
    assert Run(5, ds) + (BitsOf(value, bits) + BitsOf(byte, 8)) == (Run(5, ds) + BitsOf(value, bits)) + BitsOf(byte, 8);
  }

  lemma LastDigit(ds: seq<Digit>, digit: Digit, value: nat, bits: nat, all: Bits)
    requires 0 < bits < 5 && digit == value * Pow2(5 - bits) % 32
    requires Run(5, ds) + BitsOf(value, bits) == all
    ensures Run(5, ds + [digit]) == all + Zeros(5 - bits)
  {
    hide BitsOf, Pow2, Run;
    PowersUsed();
    var v := value * Pow2(5 - bits);
    Low(v, 5, 5);
    Split(v, bits, 5 - bits);
    ShiftBack(value, 0, 5 - bits);
    Remainder(v, Pow2(5 - bits), value, 0);
    Low(v, 5 - bits, 5 - bits);
    ZeroBits(5 - bits);
    RunMore(5, ds, digit);
    assert Run(5, ds) + (BitsOf(value, bits) + Zeros(5 - bits)) == (Run(5, ds) + BitsOf(value, bits)) + Zeros(5 - bits);
  }

  method Encode(bytes: Bytes) returns (text: string, ghost digits: seq<Digit>)
    ensures text == Spell(digits) && Encodes(digits, bytes)
    ensures |text| == (8 * |bytes| + 4) / 5
  {
    hide BitsOf, Run, Pow2;
    var bits, value: nat := 0, 0;
    text, digits := "", [];
    EmptyRuns();
    for i := 0 to |bytes|
      invariant bits < 5 && 5 * |digits| + bits == 8 * i && text == Spell(digits)
      invariant Run(5, digits) + BitsOf(value, bits) == Run(8, bytes[..i])
    {
      TakeByte(digits, value, bits, bytes[..i], bytes[i]);
      assert bytes[..i + 1] == bytes[..i] + [bytes[i]];
      value := (value * 256 + bytes[i] as int) % U32;
      bits := bits + 8;
      while bits >= 5
        invariant bits <= 12 && 5 * |digits| + bits == 8 * (i + 1) && text == Spell(digits)
        invariant Run(5, digits) + BitsOf(value, bits) == Run(8, bytes[..i + 1])
      {
        var digit: Digit := ShiftRight(value, bits - 5) % 32;
        EmitDigit(digits, digit, value, bits, Run(8, bytes[..i + 1]));
        SpellMore(digits, digit);
        digits := digits + [digit];
        text := text + [CROCKFORD[digit]];
        bits := bits - 5;
      }
    }
    assert bytes[..|bytes|] == bytes;
    if bits > 0 {
      var digit: Digit := value * Pow2(5 - bits) % 32;
      LastDigit(digits, digit, value, bits, Run(8, bytes));
      SpellMore(digits, digit);
      digits := digits + [digit];
      text := text + [CROCKFORD[digit]];
    } else {
      NoBits(value);
      assert Run(5, digits) + [] == Run(5, digits) && Run(8, bytes) + Zeros(0) == Run(8, bytes);
    }
  }

  lemma EmptyRuns()
    ensures Run(5, []) + BitsOf(0, 0) == Run(8, [])
  {
  }

  lemma NoBits(value: nat)
    ensures BitsOf(value, 0) == []
  {
  }

  lemma SpellMore(ds: seq<Digit>, d: Digit)
    ensures Spell(ds + [d]) == Spell(ds) + [CROCKFORD[d]]
  {
  }

  // ---- reading a code back ----

  predicate Kept(c: char) {
    '0' <= c <= '9' || 'A' <= c <= 'Z'
  }

  /** Characters beyond the basic alphabet whose upper case, by Unicode's SpecialCasing, holds basic letters. */
  const LIGATURES: map<char, string> := map[
    '\U{df}' := "SS", '\U{131}' := "I", '\U{149}' := "N", '\U{17f}' := "S", '\U{1f0}' := "J",
    '\U{1e96}' := "H", '\U{1e97}' := "T", '\U{1e98}' := "W", '\U{1e99}' := "Y", '\U{1e9a}' := "A",
    '\U{fb00}' := "FF", '\U{fb01}' := "FI", '\U{fb02}' := "FL", '\U{fb03}' := "FFI", '\U{fb04}' := "FFL",
    '\U{fb05}' := "ST", '\U{fb06}' := "ST"]

  /** The basic letters and digits in a character's upper case. */
  function Capitals(c: char): string {
    if Kept(c) then [c]
    else if 'a' <= c <= 'z' then [c - 32 as char]
    else if c in LIGATURES then LIGATURES[c]
    else []
  }

  /** Upper case, and only letters and digits. */
  function Clean(text: string): string {
    if text == [] then [] else Clean(text[..|text| - 1]) + Capitals(text[|text| - 1])
  }

  function Index(s: string, c: char): Option<nat> {
    if s == [] then None
    else if s[|s| - 1] == c then Some(|s| - 1)
    else Index(s[..|s| - 1], c)
  }

  /** The alphabet, and the letters people take for digits. */
  function DigitOf(c: char): Option<nat> {
    if c == 'I' || c == 'L' then Some(1)
    else if c == 'O' then Some(0)
    else Index(CROCKFORD, c)
  }

  /** What a cleaned text spells, if every character is one of the alphabet. */
  function Digits(clean: string): Option<seq<nat>> {
    if clean == [] then Some([])
    else
      var front, last := Digits(clean[..|clean| - 1]), DigitOf(clean[|clean| - 1]);
      if front.None? || last.None? then None else Some(front.value + [last.value])
  }

  /** The whole bytes in the digits' bits; what is left over is dropped. */
  ghost predicate Decodes(bytes: Bytes, ds: seq<nat>) {
    && 8 * |bytes| <= 5 * |ds| < 8 * |bytes| + 8
    && Run(8, bytes) == Run(5, ds)[..8 * |bytes|]
  }

  lemma {:induction false} IndexSmall(s: string, c: char)
    ensures Index(s, c).Some? ==> Index(s, c).value < |s| && s[Index(s, c).value] == c
  {
    if s != [] {
      IndexSmall(s[..|s| - 1], c);
    }
  }

  lemma DigitSmall(c: char)
    ensures DigitOf(c).Some? ==> DigitOf(c).value < 32
  {
    IndexSmall(CROCKFORD, c);
  }

  lemma TakeDigit(bytes: Bytes, value: nat, bits: nat, ds: seq<nat>, d: nat)
    requires bits <= 27 && d < 32 && Run(8, bytes) + BitsOf(value, bits) == Run(5, ds)
    ensures Run(8, bytes) + BitsOf((value * 32 + d) % U32, bits + 5) == Run(5, ds + [d])
  {
    hide BitsOf, Pow2, Run;
    PowersUsed();
    Push(value, bits, d, 5);
    RunMore(5, ds, d);
    assert Run(8, bytes) + (BitsOf(value, bits) + BitsOf(d, 5)) == (Run(8, bytes) + BitsOf(value, bits)) + BitsOf(d, 5);
  }

  lemma EmitByte(bytes: Bytes, byte: Byte, value: nat, bits: nat, all: Bits)
    requires bits >= 8 && byte == ShiftRight(value, bits - 8) % 256
    requires Run(8, bytes) + BitsOf(value, bits) == all
    ensures Run(8, bytes + [byte]) + BitsOf(value, bits - 8) == all
  {
    hide BitsOf, Pow2, Run;
    PowersUsed();
    Top(value, bits, 8);
    RunMore(8, bytes, byte);
    assert (Run(8, bytes) + BitsOf(byte, 8)) + BitsOf(value, bits - 8)
      == Run(8, bytes) + (BitsOf(byte, 8) + BitsOf(value, bits - 8));
  }

  lemma DigitsMore(clean: string, c: char)
    ensures Digits(clean + [c]) ==
            if Digits(clean).None? || DigitOf(c).None? then None else Some(Digits(clean).value + [DigitOf(c).value])
  {
    assert (clean + [c])[..|clean|] == clean;
  }

  /** One unreadable character spoils the whole text. */
  lemma {:induction false} Unreadable(clean: string, i: nat)
    requires i < |clean| && DigitOf(clean[i]).None?
    ensures Digits(clean).None?
  {
    if i < |clean| - 1 {
      Unreadable(clean[..|clean| - 1], i);
    }
  }

  /** Nothing is returned exactly when some character is not of the alphabet. */
  method Decode(text: string) returns (bytes: Option<Bytes>)
    ensures bytes.Some? <==> Digits(Clean(text)).Some?
    ensures bytes.Some? ==> Decodes(bytes.value, Digits(Clean(text)).value)
  {
    hide BitsOf, Run, Pow2, Clean, DigitOf;
    var clean := Clean(text);
    var bits, value: nat := 0, 0;
    var out: Bytes := [];
    ghost var ds: seq<nat> := [];
    EmptyRuns();
    for i := 0 to |clean|
      invariant bits < 8 && 8 * |out| + bits == 5 * i && |ds| == i
      invariant Digits(clean[..i]) == Some(ds)
      invariant Run(8, out) + BitsOf(value, bits) == Run(5, ds)
    {
      var digit := DigitOf(clean[i]);
      if digit.None? {
        Unreadable(clean, i);
        return None;
      }
      assert clean[..i + 1] == clean[..i] + [clean[i]];
      DigitsMore(clean[..i], clean[i]);
      DigitSmall(clean[i]);
      TakeDigit(out, value, bits, ds, digit.value);
      ds := ds + [digit.value];
      value := (value * 32 + digit.value) % U32;
      bits := bits + 5;
      if bits >= 8 {
        var byte: Byte := ShiftRight(value, bits - 8) % 256;
        EmitByte(out, byte, value, bits, Run(5, ds));
        out := out + [byte];
        bits := bits - 8;
      }
    }
    assert clean[..|clean|] == clean;
    assert (Run(8, out) + BitsOf(value, bits))[..8 * |out|] == Run(8, out);
    return Some(out);
  }

  // ---- there and back ----

  /** The digits of an encoding decode to the bytes that were encoded, and to nothing else. */
  lemma DecodesEncoded(bytes: Bytes, ds: seq<Digit>, decoded: Bytes)
    requires Encodes(ds, bytes)
    ensures Decodes(decoded, ds) <==> decoded == bytes
  {
    hide Run;
    assert (Run(8, bytes) + Zeros(5 * |ds| - 8 * |bytes|))[..8 * |bytes|] == Run(8, bytes);
    if Decodes(decoded, ds) {
      assert |decoded| == |bytes|;
      PowersUsed();
      RunFaithful(8, decoded, bytes);
    }
  }

  predicate Ascending(s: string) {
    forall i :: 0 <= i < |s| - 1 ==> s[i] < s[i + 1]
  }

  lemma {:induction false} Climb(s: string, i: nat, j: nat)
    requires Ascending(s) && i < j < |s|
    ensures s[i] < s[j]
    decreases j - i
  {
    if i + 1 < j {
      Climb(s, i, j - 1);
      assert s[j - 1] < s[j - 1 + 1];
    }
  }

  lemma {:induction false} IndexFinds(s: string, i: nat)
    requires Ascending(s) && i < |s|
    ensures Index(s, s[i]) == Some(i)
  {
    if i < |s| - 1 {
      Climb(s, i, |s| - 1);
      IndexFinds(s[..|s| - 1], i);
    }
  }

  lemma AlphabetAscends()
    ensures Ascending(CROCKFORD)
  {
  }

  lemma AlphabetLetters(d: Digit)
    ensures var c := CROCKFORD[d]; Kept(c) && !('a' <= c <= 'z') && c != 'I' && c != 'L' && c != 'O'
  {
  }

  lemma AlphabetReads(d: Digit)
    ensures DigitOf(CROCKFORD[d]) == Some(d) && Capitals(CROCKFORD[d]) == [CROCKFORD[d]]
  {
    hide Index, Ascending;
    AlphabetAscends();
    AlphabetLetters(d);
    IndexFinds(CROCKFORD, d);
  }

  lemma CleanMore(text: string, c: char)
    ensures Clean(text + [c]) == Clean(text) + Capitals(c)
  {
    assert (text + [c])[..|text|] == text;
  }

  lemma {:induction false} CleanParts(a: string, b: string)
    ensures Clean(a + b) == Clean(a) + Clean(b)
  {
    hide Capitals;
    if b == [] {
      assert a + b == a && Clean(a) + [] == Clean(a);
    } else {
      var front, c := b[..|b| - 1], b[|b| - 1];
      CleanParts(a, front);
      assert a + b == (a + front) + [c] && b == front + [c];
      CleanMore(a + front, c);
      CleanMore(front, c);
      Associative(Clean(a), Clean(front), Capitals(c));
    }
  }

  lemma {:induction false} SpelledReads(ds: seq<Digit>)
    ensures Clean(Spell(ds)) == Spell(ds) && Digits(Spell(ds)) == Some(ds)
  {
    hide DigitOf, Index;
    if ds != [] {
      var front, d := ds[..|ds| - 1], ds[|ds| - 1];
      assert ds == front + [d];
      SpelledReads(front);
      SpellMore(front, d);
      AlphabetReads(d);
      CleanMore(Spell(front), CROCKFORD[d]);
      DigitsMore(Spell(front), CROCKFORD[d]);
    }
  }

  /** Dashes after every so many characters, as long as more follow. */
  function GroupCode(text: string, size: nat): string
    requires size > 0
  {
    if |text| <= size then text else text[..size] + "-" + GroupCode(text[size..], size)
  }

  lemma {:induction false} GroupingIgnored(text: string, size: nat)
    requires size > 0
    ensures Clean(GroupCode(text, size)) == Clean(text)
  {
    hide Clean;
    if |text| > size {
      var head, rest := text[..size], text[size..];
      GroupingIgnored(rest, size);
      CleanParts(head + "-", GroupCode(rest, size));
      CleanMore(head, '-');
      assert Clean(head) + [] == Clean(head);
      CleanParts(head, rest);
      assert text == head + rest;
    }
  }

  function Lower(c: char): char {
    if 'A' <= c <= 'Z' then c + 32 as char else c
  }

  function Lowered(text: string): string {
    seq(|text|, i requires 0 <= i < |text| => Lower(text[i]))
  }

  lemma {:induction false} CaseIgnored(text: string)
    ensures Clean(Lowered(text)) == Clean(text)
  {
    if text != [] {
      var front, c := text[..|text| - 1], text[|text| - 1];
      CaseIgnored(front);
      assert text == front + [c] && Lowered(text) == Lowered(front) + [Lower(c)];
      CleanMore(Lowered(front), Lower(c));
      CleanMore(front, c);
    }
  }

  /** Two cleaned texts a reader takes for the same code. */
  predicate ReadAlike(a: string, b: string) {
    |a| == |b| && forall i :: 0 <= i < |a| ==> DigitOf(a[i]) == DigitOf(b[i])
  }

  lemma {:induction false} AliasesIgnored(a: string, b: string)
    requires ReadAlike(a, b)
    ensures Digits(a) == Digits(b)
  {
    hide DigitOf;
    if a != [] {
      AliasesIgnored(a[..|a| - 1], b[..|b| - 1]);
    }
  }

  /**
    Encoding and decoding cancel out for every byte string, although the accumulator wraps at 32
    bits; grouping by dashes, lower case, and I, L and O for 1, 1 and 0 do no harm on the way.
   */
  lemma RoundTrip(bytes: Bytes, ds: seq<Digit>, size: nat, typed: string, decoded: Bytes)
    requires size > 0 && Encodes(ds, bytes)
    requires ReadAlike(Clean(typed), Clean(Lowered(GroupCode(Spell(ds), size))))
    ensures Digits(Clean(typed)) == Some(ds)
    ensures Decodes(decoded, Digits(Clean(typed)).value) <==> decoded == bytes
  {
    hide Clean, Digits, DigitOf, Run;
    CaseIgnored(GroupCode(Spell(ds), size));
    GroupingIgnored(Spell(ds), size);
    SpelledReads(ds);
    AliasesIgnored(Clean(typed), Spell(ds));
    DecodesEncoded(bytes, ds, decoded);
  }

  /** What people type for a character: the letters that look like 1 and 0, in either case. */
  predicate LooksLike(c: char, typed: char) {
    typed == c || (c == '1' && typed in {'I', 'L', 'i', 'l'}) || (c == '0' && typed in {'O', 'o'})
  }

  /** A code in which 1 and 0 were taken for the letters that look like them reads the same. */
  lemma {:induction false} LookalikesIgnored(text: string, typed: string)
    requires |text| == |typed| && forall i :: 0 <= i < |text| ==> LooksLike(text[i], typed[i])
    ensures ReadAlike(Clean(typed), Clean(text)) && Digits(Clean(typed)) == Digits(Clean(text))
  {
    hide Clean, DigitOf, Digits;
    if text != [] {
      var n := |text| - 1;
      LookalikesIgnored(text[..n], typed[..n]);
      assert text == text[..n] + [text[n]] && typed == typed[..n] + [typed[n]];
      CleanMore(text[..n], text[n]);
      CleanMore(typed[..n], typed[n]);
      CapitalsAlike(text[n], typed[n]);
    } else {
      assert text == typed;
    }
    AliasesIgnored(Clean(typed), Clean(text));
  }

  lemma CapitalsAlike(c: char, typed: char)
    requires LooksLike(c, typed)
    ensures ReadAlike(Capitals(typed), Capitals(c))
  {
    hide Index;
    AlphabetReads(0);
    AlphabetReads(1);
  }

  // ---- short ids ----

  /** An id cut from enough random bytes has the length asked for. */
  method ShortId(random: Bytes, length: nat) returns (id: string)
    requires |random| == (length * 5 + 7) / 8
    ensures |id| == length && forall c :: c in id ==> c in CROCKFORD
  {
    ghost var digits: seq<Digit>;
    id, digits := Encode(random);
    assert forall d: Digit :: CROCKFORD[d] in CROCKFORD;
    id := id[..length];
  }
}
