/**
  UTF-8 as section 3 of RFC 3629 gives it, of the runtime's UTF-16 strings: the bytes that are signed
  and authenticated are the UTF-8 of canonical JSON text.
 */
module Utf8 {
  import opened Common
  import opened Json

  type Point = p: int | 0 <= p < 0x110000

  const REPLACEMENT: Point := 0xFFFD

  function PairPoint(high: Unit, low: Unit): Point
    requires HighSurrogate(high) && LowSurrogate(low)
  {
    0x10000 + (high - 0xD800) * 0x400 + (low - 0xDC00)
  }

  predicate Half(u: Unit) {
    HighSurrogate(u) || LowSurrogate(u)
  }

  function EncodePoint(p: Point): (b: Bytes)
    ensures b != []
  {
    if p < 0x80 then [p]
    else if p < 0x800 then [0xC0 + p / 0x40, 0x80 + p % 0x40]
    else if p < 0x10000 then [0xE0 + p / 0x1000, 0x80 + p / 0x40 % 0x40, 0x80 + p % 0x40]
    else [0xF0 + p / 0x40000, 0x80 + p / 0x1000 % 0x40, 0x80 + p / 0x40 % 0x40, 0x80 + p % 0x40]
  }

  /** A lone half of a surrogate pair has no encoding and is replaced. */
  function Encode(t: Text): Bytes {
    if t == [] then []
    else if StartsWithPair(t) then EncodePoint(PairPoint(t[0], t[1])) + Encode(t[2..])
    else EncodePoint(if Half(t[0]) then REPLACEMENT else t[0]) + Encode(t[1..])
  }

  /** Every surrogate is part of a pair. */
  predicate Paired(t: Text) {
    t == [] || if StartsWithPair(t) then Paired(t[2..]) else !Half(t[0]) && Paired(t[1..])
  }

  predicate Trail(b: Byte) {
    0x80 <= b < 0xC0
  }

  /** The bits a byte carries below its mark. */
  function Bits(b: Byte, mark: Byte): int {
    b - mark
  }

  /** The first code point and what follows it. */
  function DecodePoint(b: Bytes): (r: Option<(Point, Bytes)>)
    ensures r.Some? ==> |r.value.1| < |b|
  {
    if b == [] then None
    else if b[0] < 0x80 then Some((b[0], b[1..]))
    else if 0xC0 <= b[0] < 0xE0 && |b| >= 2 && Trail(b[1]) then
      Some((Bits(b[0], 0xC0) * 0x40 + Bits(b[1], 0x80), b[2..]))
    else if 0xE0 <= b[0] < 0xF0 && |b| >= 3 && Trail(b[1]) && Trail(b[2]) then
      Some((Bits(b[0], 0xE0) * 0x1000 + Bits(b[1], 0x80) * 0x40 + Bits(b[2], 0x80), b[3..]))
    else if 0xF0 <= b[0] <= 0xF4 && |b| >= 4 && Trail(b[1]) && Trail(b[2]) && Trail(b[3])
            && (b[0] == 0xF4 ==> b[1] < 0x90) then
      Some((Bits(b[0], 0xF0) * 0x40000 + Bits(b[1], 0x80) * 0x1000 + Bits(b[2], 0x80) * 0x40 + Bits(b[3], 0x80),
            b[4..]))
    else None
  }

  function Units(p: Point): Text {
    if p < 0x10000 then [p] else [0xD800 + (p - 0x10000) / 0x400, 0xDC00 + (p - 0x10000) % 0x400]
  }

  function Decode(b: Bytes): Option<Text>
    decreases |b|
  {
    if b == [] then Some([])
    else
      var first := DecodePoint(b);
      if first.None? then None
      else
        var rest := Decode(first.value.1);
        if rest.None? then None else Some(Units(first.value.0) + rest.value)
  }

  lemma PointRoundTrip(p: Point, rest: Bytes)
    ensures DecodePoint(EncodePoint(p) + rest) == Some((p, rest))
  {
    var b := EncodePoint(p) + rest;
    assert b[|EncodePoint(p)|..] == rest;
    assert forall i :: 0 <= i < |EncodePoint(p)| ==> b[i] == EncodePoint(p)[i];
    if p < 0x80 {
    } else if p < 0x800 {
      assert p / 0x40 < 0x20;
    } else if p < 0x10000 {
      ThreeDigits(p);
    } else {
      FourDigits(p);
    }
  }

  lemma ThreeDigits(p: Point)
    requires p < 0x10000
    ensures p / 0x1000 < 0x10 && p == p / 0x1000 * 0x1000 + p / 0x40 % 0x40 * 0x40 + p % 0x40
  {
  }

  lemma FourDigits(p: Point)
    ensures p / 0x40000 <= 4 && (p / 0x40000 == 4 ==> p / 0x1000 % 0x40 < 0x10)
    ensures p == p / 0x40000 * 0x40000 + p / 0x1000 % 0x40 * 0x1000 + p / 0x40 % 0x40 * 0x40 + p % 0x40
  {
  }

  lemma PairUnits(high: Unit, low: Unit)
    requires HighSurrogate(high) && LowSurrogate(low)
    ensures Units(PairPoint(high, low)) == [high, low]
  {
  }

  /** Text without lone halves comes back from its UTF-8 unchanged. */
  lemma {:induction false} RoundTrip(t: Text)
    requires Paired(t)
    ensures Decode(Encode(t)) == Some(t)
    decreases |t|
  {
    hide EncodePoint, DecodePoint, PairPoint, Units;
    if t != [] {
      if StartsWithPair(t) {
        RoundTrip(t[2..]);
        PointRoundTrip(PairPoint(t[0], t[1]), Encode(t[2..]));
        PairUnits(t[0], t[1]);
        assert t == [t[0], t[1]] + t[2..];
      } else {
        RoundTrip(t[1..]);
        PointRoundTrip(t[0], Encode(t[1..]));
        OneUnit(t[0]);
        assert t == [t[0]] + t[1..];
      }
    }
  }

  lemma OneUnit(u: Unit)
    ensures Units(u) == [u]
  {
  }

  /** A lone half is lost: it reads back as the replacement character. */
  lemma LoneHalfLost(u: Unit)
    requires Half(u)
    ensures Encode([u]) == [0xEF, 0xBF, 0xBD] && Decode(Encode([u])) == Some([REPLACEMENT]) && u != REPLACEMENT
  {
    assert [u][1..] == [] && [REPLACEMENT][1..] == [];
    var r: Text := [REPLACEMENT];
    RoundTrip(r);
  }

  // ---- canonical text has no lone halves ----

  lemma {:induction false} PairedMore(s: Text, t: Text)
    requires Paired(s) && Paired(t)
    ensures Paired(s + t)
    decreases |s|
  {
    if s == [] {
      assert s + t == t;
    } else if StartsWithPair(s) {
      PairedMore(s[2..], t);
      assert (s + t)[2..] == s[2..] + t;
    } else {
      PairedMore(s[1..], t);
      assert (s + t)[1..] == s[1..] + t;
    }
  }

  lemma {:induction false} PlainPaired(t: Text)
    requires forall i :: 0 <= i < |t| ==> !Half(t[i])
    ensures Paired(t)
  {
    if t != [] {
      PlainPaired(t[1..]);
    }
  }

  lemma EscapeUnitPaired(u: Unit)
    ensures Paired(EscapeUnit(u))
  {
    PlainPaired(EscapeUnit(u));
  }

  lemma {:induction false} EscapePaired(t: Text)
    ensures Paired(Escape(t))
    decreases |t|
  {
    hide EscapeUnit;
    if t != [] {
      if StartsWithPair(t) {
        EscapePaired(t[2..]);
        var pair := [t[0], t[1]];
        assert pair[2..] == [];
        PairedMore(pair, Escape(t[2..]));
      } else {
        EscapePaired(t[1..]);
        EscapeUnitPaired(t[0]);
        PairedMore(EscapeUnit(t[0]), Escape(t[1..]));
      }
    }
  }

  lemma QuotedPaired(t: Text)
    ensures Paired(Quoted(t))
  {
    EscapePaired(t);
    Bracketed(QUOTE, Escape(t), QUOTE);
  }

  lemma Bracketed(a: Unit, t: Text, b: Unit)
    requires Paired(t) && !Half(a) && !Half(b)
    ensures Paired([a] + t + [b])
  {
    PlainPaired([a]);
    PlainPaired([b]);
    PairedMore([a], t);
    PairedMore([a] + t, [b]);
  }

  lemma {:induction false} CanonicalPaired(v: Value)
    ensures Paired(Canonical(v))
    decreases v, 1, 0
  {
    match v
    case Str(t) => QuotedPaired(t);
    case Arr(items) =>
      ItemsPaired(v, items);
      Bracketed(OPEN_ARRAY, JoinItems(v, items), CLOSE_ARRAY);
    case Obj(members) =>
      MembersPaired(v, SortDefined(members));
      Bracketed(OPEN_OBJECT, JoinMembers(v, SortDefined(members)), CLOSE_OBJECT);
    case _ => PlainPaired(Canonical(v));
  }

  lemma {:induction false} ItemsPaired(v: Value, items: seq<Value>)
    requires v.Arr? && forall e :: e in items ==> e in v.items
    ensures Paired(JoinItems(v, items))
    decreases v, 0, |items|
  {
    if items != [] {
      assert items[0] in v.items;
      CanonicalPaired(items[0]);
      if |items| == 1 {
        PairedMore(Canonical(items[0]), []);
      } else {
        ItemsPaired(v, items[1..]);
        PlainPaired([COMMA]);
        PairedMore([COMMA], JoinItems(v, items[1..]));
        PairedMore(Canonical(items[0]), [COMMA] + JoinItems(v, items[1..]));
      }
    }
  }

  lemma {:induction false} MembersPaired(v: Value, ms: seq<Member>)
    requires v.Obj? && forall e :: e in ms ==> e in v.members
    ensures Paired(JoinMembers(v, ms))
    decreases v, 0, |ms|
  {
    if ms != [] {
      assert ms[0] in v.members;
      CanonicalPaired(ms[0].value);
      QuotedPaired(ms[0].key);
      PlainPaired([COLON]);
      var head := Quoted(ms[0].key) + [COLON] + Canonical(ms[0].value);
      PairedMore(Quoted(ms[0].key), [COLON]);
      PairedMore(Quoted(ms[0].key) + [COLON], Canonical(ms[0].value));
      if |ms| == 1 {
        PairedMore(head, []);
      } else {
        MembersPaired(v, ms[1..]);
        PlainPaired([COMMA]);
        PairedMore([COMMA], JoinMembers(v, ms[1..]));
        PairedMore(head, [COMMA] + JoinMembers(v, ms[1..]));
      }
    }
  }

  // ---- canonicalBytes ----

  function CanonicalBytes(v: Value): Bytes {
    Encode(Canonical(v))
  }

  /** The bytes that are signed are a faithful name for the meaning: equal bytes exactly when equal meanings. */
  lemma {:induction false} CanonicalBytesFaithful(v: Value, w: Value)
    requires WellFormed(v) && WellFormed(w)
    ensures CanonicalBytes(v) == CanonicalBytes(w) <==> Meaning(v) == Meaning(w)
  {
    CanonicalPaired(v);
    CanonicalPaired(w);
    RoundTrip(Canonical(v));
    RoundTrip(Canonical(w));
    CanonicalFaithful(v, w);
  }

  /** Read back as UTF-8 and then as JSON, the bytes give what the value means. */
  lemma {:induction false} CanonicalBytesRoundTrip(v: Value)
    requires WellFormed(v)
    ensures Decode(CanonicalBytes(v)) == Some(Canonical(v)) && Parse(Canonical(v)) == Some(Meaning(v))
  {
    CanonicalPaired(v);
    RoundTrip(Canonical(v));
    CanonicalRoundTrip(v);
  }

  // ---- strings are written as shortly as they can be ----

  /** What a unit of well-formed text takes in a string literal. */
  function UnitCost(u: Unit): nat {
    if Half(u) then 1 else |EscapeUnit(u)|
  }

  function Cost(t: Text): nat {
    if t == [] then 0 else UnitCost(t[0]) + Cost(t[1..])
  }

  lemma {:induction false} PairedCost(t: Text)
    requires Paired(t)
    ensures |Escape(t)| == Cost(t)
  {
    hide EscapeUnit;
    if t != [] {
      if StartsWithPair(t) {
        PairedCost(t[2..]);
        assert t[1..][1..] == t[2..];
        assert Cost(t[1..]) == 1 + Cost(t[2..]);
      } else {
        PairedCost(t[1..]);
      }
    }
  }

  lemma {:induction false} LiteralCost(s: Text)
    requires ParseString(s).Some?
    ensures var (t, rest) := ParseString(s).value; Cost(t) + 1 + |rest| <= |s|
    decreases |s|
  {
    if s[0] != QUOTE {
      if s[0] == BACKSLASH {
        var (u, after) := ParseEscape(s[1..]).value;
        var (t, rest) := ParseString(after).value;
        LiteralCost(after);
        EscapeCost(s[1..]);
        assert ([u] + t)[1..] == t;
      } else {
        var (t, rest) := ParseString(s[1..]).value;
        LiteralCost(s[1..]);
        assert ([s[0]] + t)[1..] == t;
      }
    }
  }

  lemma EscapeCost(s: Text)
    requires ParseEscape(s).Some?
    ensures var (u, rest) := ParseEscape(s).value; UnitCost(u) + |rest| <= 1 + |s|
  {
    hide HexValue;
  }

  /**
    No text of a string literal that a parser reads as this string is shorter than the canonical one, and where code
    units are spelled in hexadecimal it is in lower case.
   */
  lemma QuotedShortest(s: Text, u: Unit)
    requires ParseString(s).Some? && Paired(ParseString(s).value.0)
    ensures var (t, rest) := ParseString(s).value; |Quoted(t)| <= 1 + |s| - |rest|
    ensures forall i :: 2 <= i < 6 ==> Digit(UnicodeEscape(u)[i]) || 97 <= UnicodeEscape(u)[i] <= 102
  {
    hide ParseString, Cost, Escape, Paired, EscapeUnit;
    LiteralCost(s);
    PairedCost(ParseString(s).value.0);
    LowerCaseHex(u);
  }

  lemma LowerCaseHex(u: Unit)
    ensures forall i :: 2 <= i < 6 ==> Digit(UnicodeEscape(u)[i]) || 97 <= UnicodeEscape(u)[i] <= 102
  {
    var t := UnicodeEscape(u);
    assert t[2..] == [t[2], t[3], t[4], t[5]];
  }
}
