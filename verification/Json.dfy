/**
  Deterministic JSON: the text every signature, confirmation tag and sealed metadata block is
  computed over, and a parser for sections 2 to 7 of RFC 8259 that undoes it.
  Text is a sequence of UTF-16 code units, as the runtime's strings are.
 */
module Json {
  import opened Common

  type Unit = u: int | 0 <= u < 0x10000

  type Text = seq<Unit>

  const QUOTE: Unit := 34
  const COMMA: Unit := 44
  const COLON: Unit := 58
  const OPEN_ARRAY: Unit := 91
  const BACKSLASH: Unit := 92
  const CLOSE_ARRAY: Unit := 93
  const OPEN_OBJECT: Unit := 123
  const CLOSE_OBJECT: Unit := 125
  const NULL_TEXT: Text := [110, 117, 108, 108]
  const TRUE_TEXT: Text := [116, 114, 117, 101]
  const FALSE_TEXT: Text := [102, 97, 108, 115, 101]

  // ---- numbers: a finite number stands for the token the runtime prints for it ----

  predicate Digit(u: Unit) { 48 <= u <= 57 }

  predicate NumberUnit(u: Unit) { Digit(u) || u in {43, 45, 46, 69, 101} }

  function SkipDigits(t: Text): (rest: Text)
    ensures |rest| <= |t|
  {
    if t != [] && Digit(t[0]) then SkipDigits(t[1..]) else t
  }

  predicate Exponent(t: Text) {
    t == [] ||
    (t[0] in {69, 101} &&
     var signed := t[1..];
     var digits := if signed != [] && signed[0] in {43, 45} then signed[1..] else signed;
     digits != [] && SkipDigits(digits) == [])
  }

  predicate Fraction(t: Text) {
    if t != [] && t[0] == 46 then t[1..] != [] && Digit(t[1]) && Exponent(SkipDigits(t[1..])) else Exponent(t)
  }

  /** The number grammar of section 6 of RFC 8259. */
  predicate NumberToken(t: Text) {
    && (forall i :: 0 <= i < |t| ==> NumberUnit(t[i]))
    && var body := if t != [] && t[0] == 45 then t[1..] else t;
       body != [] && Digit(body[0]) && Fraction(if body[0] == 48 then body[1..] else SkipDigits(body))
  }

  type NumberText = t: Text | NumberToken(t) witness [48]

  // ---- values as the program holds them, and what they mean ----

  /** Members keep their insertion order; a non-finite number has no JSON form of its own. */
  datatype Value =
    | Undefined
    | Null
    | Bool(b: bool)
    | Number(text: NumberText)
    | NonFinite
    | Str(t: Text)
    | Arr(items: seq<Value>)
    | Obj(members: seq<Member>)

  datatype Member = Member(key: Text, value: Value)

  /** A value without order: what two runtimes must agree on. */
  datatype Logical =
    | LNull
    | LBool(b: bool)
    | LNumber(text: NumberText)
    | LStr(t: Text)
    | LArr(items: seq<Logical>)
    | LObj(members: map<Text, Logical>)

  /** An object has no key twice. */
  ghost predicate WellFormed(v: Value) {
    match v
    case Arr(items) => forall i :: 0 <= i < |items| ==> WellFormed(items[i])
    case Obj(members) =>
      && DistinctKeys(members)
      && forall i :: 0 <= i < |members| ==> WellFormed(members[i].value)
    case _ => true
  }

  ghost predicate DistinctKeys(ms: seq<Member>) {
    forall i, j :: 0 <= i < j < |ms| ==> ms[i].key != ms[j].key
  }

  /** Undefined members are absent; anything else without a JSON form reads as null. */
  function Meaning(v: Value): Logical
    decreases v, 0
  {
    match v
    case Undefined => LNull
    case NonFinite => LNull
    case Null => LNull
    case Bool(b) => LBool(b)
    case Number(text) => LNumber(text)
    case Str(t) => LStr(t)
    case Arr(items) => LArr(Meanings(items))
    case Obj(members) => LObj(MeaningOfMembers(members))
  }

  function Meanings(vs: seq<Value>): seq<Logical>
    decreases vs
  {
    if vs == [] then [] else [Meaning(vs[0])] + Meanings(vs[1..])
  }

  function MeaningOfMembers(ms: seq<Member>): map<Text, Logical>
    decreases ms
  {
    if ms == [] then map[]
    else if ms[0].value.Undefined? then MeaningOfMembers(ms[1..])
    else map[ms[0].key := Meaning(ms[0].value)] + MeaningOfMembers(ms[1..])
  }

  // ---- key order ----

  predicate Less(a: Text, b: Text) {
    b != [] && (a == [] || a[0] < b[0] || (a[0] == b[0] && Less(a[1..], b[1..])))
  }

  lemma LessTotal(a: Text, b: Text)
    ensures a == b || Less(a, b) || Less(b, a)
  {
    if a != [] && b != [] && a[0] == b[0] {
      LessTotal(a[1..], b[1..]);
      assert a == [a[0]] + a[1..] && b == [b[0]] + b[1..];
    }
  }

  lemma LessTransitive(a: Text, b: Text, c: Text)
    requires Less(a, b) && Less(b, c)
    ensures Less(a, c)
  {
    if a != [] && a[0] == b[0] == c[0] {
      LessTransitive(a[1..], b[1..], c[1..]);
    }
  }

  lemma LessStrict(a: Text, b: Text)
    requires Less(a, b)
    ensures a != b && !Less(b, a)
  {
    if a != [] && a[0] == b[0] {
      LessStrict(a[1..], b[1..]);
    }
  }

  ghost predicate Sorted(ms: seq<Member>) {
    forall i, j :: 0 <= i < j < |ms| ==> Less(ms[i].key, ms[j].key)
  }

  function Insert(m: Member, ms: seq<Member>): (r: seq<Member>)
    ensures forall e :: e in r <==> e == m || e in ms
  {
    if ms == [] || Less(m.key, ms[0].key) then [m] + ms
    else
      var r := [ms[0]] + Insert(m, ms[1..]);
      assert ms == [ms[0]] + ms[1..];
      r
  }

  /** The defined members in key order. */
  function SortDefined(ms: seq<Member>): (r: seq<Member>)
    ensures forall e :: e in r <==> e in ms && !e.value.Undefined?
  {
    if ms == [] then []
    else
      assert ms == [ms[0]] + ms[1..];
      if ms[0].value.Undefined? then SortDefined(ms[1..]) else Insert(ms[0], SortDefined(ms[1..]))
  }

  lemma InsertSorted(m: Member, ms: seq<Member>)
    requires Sorted(ms) && forall e :: e in ms ==> e.key != m.key
    ensures Sorted(Insert(m, ms))
  {
    if ms != [] {
      if Less(m.key, ms[0].key) {
        forall j | 0 < j < |ms| ensures Less(m.key, ms[j].key) {
          LessTransitive(m.key, ms[0].key, ms[j].key);
        }
      } else {
        InsertSorted(m, ms[1..]);
        LessTotal(m.key, ms[0].key);
        var tail := Insert(m, ms[1..]);
        forall j | 0 <= j < |tail| ensures Less(ms[0].key, tail[j].key) {
          assert tail[j] in tail;
          if tail[j] != m {
            var i :| 0 <= i < |ms[1..]| && ms[1..][i] == tail[j];
          }
        }
      }
    }
  }

  lemma SortDefinedSorted(ms: seq<Member>)
    requires DistinctKeys(ms)
    ensures Sorted(SortDefined(ms))
  {
    if ms != [] {
      SortDefinedSorted(ms[1..]);
      if !ms[0].value.Undefined? {
        InsertSorted(ms[0], SortDefined(ms[1..]));
      }
    }
  }

  lemma {:induction false} ConsMeaning(m: Member, ms: seq<Member>)
    ensures MeaningOfMembers([m] + ms) ==
            if m.value.Undefined? then MeaningOfMembers(ms)
            else map[m.key := Meaning(m.value)] + MeaningOfMembers(ms)
  {
    assert ([m] + ms)[1..] == ms;
  }

  lemma {:induction false} InsertMeaning(m: Member, ms: seq<Member>)
    requires !m.value.Undefined? && forall i :: 0 <= i < |ms| ==> ms[i].key != m.key
    ensures MeaningOfMembers(Insert(m, ms)) == map[m.key := Meaning(m.value)] + MeaningOfMembers(ms)
  {
    if ms == [] || Less(m.key, ms[0].key) {
      ConsMeaning(m, ms);
    } else {
      InsertMeaning(m, ms[1..]);
      ConsMeaning(ms[0], Insert(m, ms[1..]));
    }
  }

  lemma KeysOfMeaning(ms: seq<Member>)
    ensures forall k :: k in MeaningOfMembers(ms) <==> exists e :: e in ms && e.key == k && !e.value.Undefined?
  {
    if ms != [] {
      KeysOfMeaning(ms[1..]);
      assert ms == [ms[0]] + ms[1..];
    }
  }

  lemma SortingKeepsMeaning(ms: seq<Member>)
    requires DistinctKeys(ms)
    ensures MeaningOfMembers(SortDefined(ms)) == MeaningOfMembers(ms)
  {
    if ms != [] {
      SortingKeepsMeaning(ms[1..]);
      if !ms[0].value.Undefined? {
        InsertMeaning(ms[0], SortDefined(ms[1..]));
      }
    }
  }

  // ---- strings ----

  predicate HighSurrogate(u: Unit) { 0xD800 <= u < 0xDC00 }

  predicate LowSurrogate(u: Unit) { 0xDC00 <= u < 0xE000 }

  function HexDigit(n: int): Unit
    requires 0 <= n < 16
  {
    if n < 10 then 48 + n else 87 + n
  }

  function HexValue(u: Unit): Option<int> {
    if 48 <= u <= 57 then Some(u - 48)
    else if 97 <= u <= 102 then Some(u - 87)
    else if 65 <= u <= 70 then Some(u - 55)
    else None
  }

  function UnicodeEscape(u: Unit): Text {
    [BACKSLASH, 117, HexDigit(u / 4096), HexDigit(u / 256 % 16), HexDigit(u / 16 % 16), HexDigit(u % 16)]
  }

  function EscapeUnit(u: Unit): Text {
    if u == QUOTE || u == BACKSLASH then [BACKSLASH, u]
    else if u == 8 then [BACKSLASH, 98]
    else if u == 9 then [BACKSLASH, 116]
    else if u == 10 then [BACKSLASH, 110]
    else if u == 12 then [BACKSLASH, 102]
    else if u == 13 then [BACKSLASH, 114]
    else if u < 32 || HighSurrogate(u) || LowSurrogate(u) then UnicodeEscape(u)
    else [u]
  }

  predicate StartsWithPair(t: Text) {
    |t| > 1 && HighSurrogate(t[0]) && LowSurrogate(t[1])
  }

  /** A surrogate pair is one character and goes out as it is; a lone half is escaped. */
  function Escape(t: Text): Text {
    if t == [] then []
    else if StartsWithPair(t) then [t[0], t[1]] + Escape(t[2..])
    else EscapeUnit(t[0]) + Escape(t[1..])
  }

  function Quoted(t: Text): Text {
    [QUOTE] + Escape(t) + [QUOTE]
  }

  // ---- canonicalJson ----

  function Canonical(v: Value): Text
    decreases v, 1, 0
  {
    match v
    case Undefined => NULL_TEXT
    case NonFinite => NULL_TEXT
    case Null => NULL_TEXT
    case Bool(b) => if b then TRUE_TEXT else FALSE_TEXT
    case Number(text) => text
    case Str(t) => Quoted(t)
    case Arr(items) => [OPEN_ARRAY] + JoinItems(v, items) + [CLOSE_ARRAY]
    case Obj(members) => [OPEN_OBJECT] + JoinMembers(v, SortDefined(members)) + [CLOSE_OBJECT]
  }

  function JoinItems(v: Value, items: seq<Value>): Text
    requires v.Arr? && forall e :: e in items ==> e in v.items
    decreases v, 0, |items|
  {
    if items == [] then []
    else
      assert items[0] in v.items;
      Canonical(items[0]) + (if |items| == 1 then [] else [COMMA] + JoinItems(v, items[1..]))
  }

  function JoinMembers(v: Value, ms: seq<Member>): Text
    requires v.Obj? && forall e :: e in ms ==> e in v.members
    decreases v, 0, |ms|
  {
    if ms == [] then []
    else
      assert ms[0] in v.members;
      Quoted(ms[0].key) + [COLON] + Canonical(ms[0].value)
      + (if |ms| == 1 then [] else [COMMA] + JoinMembers(v, ms[1..]))
  }

  // ---- the parser ----

  function SkipSpace(s: Text): (rest: Text)
    ensures |rest| <= |s|
  {
    if s != [] && s[0] in {9, 10, 13, 32} then SkipSpace(s[1..]) else s
  }

  /** One escape sequence, after its backslash. */
  function ParseEscape(s: Text): (r: Option<(Unit, Text)>)
    ensures r.Some? ==> |r.value.1| < |s|
  {
    if s == [] then None
    else if s[0] in {QUOTE, BACKSLASH, 47} then Some((s[0], s[1..]))
    else if s[0] == 98 then Some((8, s[1..]))
    else if s[0] == 102 then Some((12, s[1..]))
    else if s[0] == 110 then Some((10, s[1..]))
    else if s[0] == 114 then Some((13, s[1..]))
    else if s[0] == 116 then Some((9, s[1..]))
    else if s[0] == 117 && |s| >= 5 then
      var a, b, c, d := HexValue(s[1]), HexValue(s[2]), HexValue(s[3]), HexValue(s[4]);
      if a.None? || b.None? || c.None? || d.None? then None
      else Some((((a.value * 16 + b.value) * 16 + c.value) * 16 + d.value, s[5..]))
    else None
  }

  /** The rest of a string, after its opening quote. */
  function ParseString(s: Text): (r: Option<(Text, Text)>)
    ensures r.Some? ==> |r.value.1| < |s|
    decreases |s|
  {
    if s == [] || s[0] < 32 then None
    else if s[0] == QUOTE then Some(([], s[1..]))
    else if s[0] == BACKSLASH then
      var e := ParseEscape(s[1..]);
      if e.None? then None
      else
        var more := ParseString(e.value.1);
        if more.None? then None else Some(([e.value.0] + more.value.0, more.value.1))
    else
      var more := ParseString(s[1..]);
      if more.None? then None else Some(([s[0]] + more.value.0, more.value.1))
  }

  function NumberPrefix(s: Text): (token: Text)
    ensures token <= s
  {
    if s != [] && NumberUnit(s[0]) then [s[0]] + NumberPrefix(s[1..]) else []
  }

  function ParseValue(text: Text): (r: Option<(Logical, Text)>)
    ensures r.Some? ==> |r.value.1| < |text|
    decreases |text|, 1
  {
    var s := SkipSpace(text);
    if s == [] then None
    else if NULL_TEXT <= s then Some((LNull, s[4..]))
    else if TRUE_TEXT <= s then Some((LBool(true), s[4..]))
    else if FALSE_TEXT <= s then Some((LBool(false), s[5..]))
    else if s[0] == QUOTE then
      var str := ParseString(s[1..]);
      if str.None? then None else Some((LStr(str.value.0), str.value.1))
    else if s[0] == OPEN_ARRAY then
      var inside := SkipSpace(s[1..]);
      if inside != [] && inside[0] == CLOSE_ARRAY then Some((LArr([]), inside[1..]))
      else
        var items := ParseItems(inside);
        if items.None? then None else Some((LArr(items.value.0), items.value.1))
    else if s[0] == OPEN_OBJECT then
      var inside := SkipSpace(s[1..]);
      if inside != [] && inside[0] == CLOSE_OBJECT then Some((LObj(map[]), inside[1..]))
      else
        var members := ParseMembers(inside);
        if members.None? then None else Some((LObj(members.value.0), members.value.1))
    else
      var token := NumberPrefix(s);
      if NumberToken(token) then Some((LNumber(token), s[|token|..])) else None
  }

  function ParseItems(text: Text): (r: Option<(seq<Logical>, Text)>)
    ensures r.Some? ==> |r.value.1| < |text|
    decreases |text|, 2
  {
    var first := ParseValue(text);
    if first.None? then None
    else
      var after := SkipSpace(first.value.1);
      if after == [] then None
      else if after[0] == CLOSE_ARRAY then Some(([first.value.0], after[1..]))
      else if after[0] != COMMA then None
      else
        var more := ParseItems(after[1..]);
        if more.None? then None else Some(([first.value.0] + more.value.0, more.value.1))
  }

  /** A key met twice keeps the later value, as JSON.parse does. */
  function ParseMembers(text: Text): (r: Option<(map<Text, Logical>, Text)>)
    ensures r.Some? ==> |r.value.1| < |text|
    decreases |text|, 2
  {
    var s := SkipSpace(text);
    if s == [] || s[0] != QUOTE then None
    else
      var key := ParseString(s[1..]);
      if key.None? then None
      else
        var colon := SkipSpace(key.value.1);
        if colon == [] || colon[0] != COLON then None
        else
          var value := ParseValue(colon[1..]);
          if value.None? then None
          else
            var after := SkipSpace(value.value.1);
            if after == [] then None
            else if after[0] == CLOSE_OBJECT then Some((map[key.value.0 := value.value.0], after[1..]))
            else if after[0] != COMMA then None
            else
              var more := ParseMembers(after[1..]);
              if more.None? then None
              else Some((map[key.value.0 := value.value.0] + more.value.0, more.value.1))
  }

  /** A document is one value and nothing after it. */
  function Parse(text: Text): Option<Logical> {
    var r := ParseValue(text);
    if r.Some? && SkipSpace(r.value.1) == [] then Some(r.value.0) else None
  }

  // ---- the round trip ----

  lemma HexDigitsOf(u: Unit)
    ensures ((u / 4096 * 16 + u / 256 % 16) * 16 + u / 16 % 16) * 16 + u % 16 == u
    ensures 0 <= u / 4096 < 16
  {
    assert u / 256 == u / 16 / 16 && u / 4096 == u / 256 / 16;
  }

  lemma HexDigitRoundTrip(n: int)
    requires 0 <= n < 16
    ensures HexValue(HexDigit(n)) == Some(n)
  {
  }

  lemma {:induction false} HexRoundTrip(u: Unit, rest: Text)
    ensures ParseEscape(UnicodeEscape(u)[1..] + rest) == Some((u, rest))
  {
    HexDigitsOf(u);
    var a, b, c, d := u / 4096, u / 256 % 16, u / 16 % 16, u % 16;
    HexDigitRoundTrip(a);
    HexDigitRoundTrip(b);
    HexDigitRoundTrip(c);
    HexDigitRoundTrip(d);
    var digits := [117, HexDigit(a), HexDigit(b), HexDigit(c), HexDigit(d)];
    assert UnicodeEscape(u)[1..] == digits;
    assert (digits + rest)[5..] == rest;
  }

  lemma {:induction false} EscapeUnitRoundTrip(u: Unit, rest: Text)
    requires ParseString(rest).Some?
    ensures ParseString(EscapeUnit(u) + rest)
            == Some(([u] + ParseString(rest).value.0, ParseString(rest).value.1))
  {
    var e := EscapeUnit(u);
    if |e| > 1 {
      if |e| == 6 {
        HexRoundTrip(u, rest);
      } else {
        assert e[1..] + rest == [e[1]] + rest;
        assert ([e[1]] + rest)[1..] == rest;
      }
      assert (e + rest)[1..] == e[1..] + rest;
    } else {
      assert (e + rest)[1..] == rest;
    }
  }

  lemma {:induction false} RawUnitRoundTrip(u: Unit, rest: Text)
    requires u >= 32 && u != QUOTE && u != BACKSLASH && ParseString(rest).Some?
    ensures ParseString([u] + rest) == Some(([u] + ParseString(rest).value.0, ParseString(rest).value.1))
  {
    assert ([u] + rest)[1..] == rest;
  }

  lemma {:induction false} EscapeSplit(t: Text, tail: Text)
    requires t != []
    ensures Escape(t) + tail == if StartsWithPair(t) then [t[0], t[1]] + (Escape(t[2..]) + tail)
                                else EscapeUnit(t[0]) + (Escape(t[1..]) + tail)
  {
    if StartsWithPair(t) {
      Associative([t[0], t[1]], Escape(t[2..]), tail);
    } else {
      Associative(EscapeUnit(t[0]), Escape(t[1..]), tail);
    }
  }

  lemma {:induction false} StringRoundTrip(t: Text, rest: Text)
    ensures ParseString(Escape(t) + ([QUOTE] + rest)) == Some((t, rest))
  {
    var tail := [QUOTE] + rest;
    if t == [] {
      assert Escape(t) + tail == tail;
      assert tail[1..] == rest;
    } else {
      EscapeSplit(t, tail);
      if StartsWithPair(t) {
        StringRoundTrip(t[2..], rest);
        PairRoundTrip(t, Escape(t[2..]) + tail);
      } else {
        StringRoundTrip(t[1..], rest);
        EscapeUnitRoundTrip(t[0], Escape(t[1..]) + tail);
        assert t == [t[0]] + t[1..];
      }
    }
  }

  lemma {:induction false} PairRoundTrip(t: Text, inner: Text)
    requires StartsWithPair(t)
    requires ParseString(inner).Some? && ParseString(inner).value.0 == t[2..]
    ensures ParseString([t[0], t[1]] + inner) == Some((t, ParseString(inner).value.1))
  {
    RawUnitRoundTrip(t[1], inner);
    RawUnitRoundTrip(t[0], [t[1]] + inner);
    assert [t[0], t[1]] + inner == [t[0]] + ([t[1]] + inner);
    assert t == [t[0]] + ([t[1]] + t[2..]);
  }

  lemma {:induction false} NumberRoundTrip(token: Text, rest: Text)
    requires forall i :: 0 <= i < |token| ==> NumberUnit(token[i])
    requires rest == [] || !NumberUnit(rest[0])
    ensures NumberPrefix(token + rest) == token
  {
    if token == [] {
      assert token + rest == rest;
    } else {
      NumberRoundTrip(token[1..], rest);
      assert token + rest == [token[0]] + (token[1..] + rest);
      assert ([token[0]] + (token[1..] + rest))[1..] == token[1..] + rest;
    }
  }

  /** What may follow a value: nothing a number token could swallow. */
  predicate Ends(rest: Text) {
    rest == [] || !NumberUnit(rest[0])
  }

  lemma {:induction false} LiteralRoundTrip(v: Value, rest: Text)
    requires v.Undefined? || v.NonFinite? || v.Null? || v.Bool?
    ensures ParseValue(Canonical(v) + rest) == Some((Meaning(v), rest))
  {
    var s := Canonical(v) + rest;
    assert SkipSpace(s) == s;
    assert s[|Canonical(v)|..] == rest;
    if v == Bool(false) {
      assert FALSE_TEXT <= s;
    }
  }

  lemma {:induction false} QuotedRoundTrip(t: Text, rest: Text)
    ensures ParseValue(Quoted(t) + rest) == Some((LStr(t), rest))
  {
    var s := Quoted(t) + rest;
    assert s[1..] == Escape(t) + ([QUOTE] + rest);
    StringRoundTrip(t, rest);
  }

  lemma {:induction false} TokenRoundTrip(token: NumberText, rest: Text)
    requires Ends(rest)
    ensures ParseValue(token + rest) == Some((LNumber(token), rest))
  {
    var s := token + rest;
    assert NumberUnit(s[0]) && SkipSpace(s) == s;
    NumberRoundTrip(token, rest);
  }

  /** Steps of the parser, each for text of one shape. */
  lemma {:induction false} ParseArrayStep(inside: Text, items: seq<Logical>, rest: Text)
    requires inside != [] && inside[0] !in {9, 10, 13, 32}
    requires if inside[0] == CLOSE_ARRAY then items == [] && rest == inside[1..]
             else ParseItems(inside) == Some((items, rest))
    ensures ParseValue([OPEN_ARRAY] + inside) == Some((LArr(items), rest))
  {
    assert ([OPEN_ARRAY] + inside)[1..] == inside;
  }

  lemma {:induction false} ParseObjectStep(inside: Text, members: map<Text, Logical>, rest: Text)
    requires inside != [] && inside[0] !in {9, 10, 13, 32}
    requires if inside[0] == CLOSE_OBJECT then members == map[] && rest == inside[1..]
             else ParseMembers(inside) == Some((members, rest))
    ensures ParseValue([OPEN_OBJECT] + inside) == Some((LObj(members), rest))
  {
    assert ([OPEN_OBJECT] + inside)[1..] == inside;
  }

  lemma {:induction false} ParseLastItem(text: Text, item: Logical, rest: Text)
    requires ParseValue(text) == Some((item, [CLOSE_ARRAY] + rest))
    ensures ParseItems(text) == Some(([item], rest))
  {
    assert ([CLOSE_ARRAY] + rest)[1..] == rest;
  }

  lemma {:induction false} ParseMoreItems(text: Text, item: Logical, more: Text)
    requires ParseValue(text) == Some((item, [COMMA] + more)) && ParseItems(more).Some?
    ensures ParseItems(text) == Some(([item] + ParseItems(more).value.0, ParseItems(more).value.1))
  {
    assert ([COMMA] + more)[1..] == more;
  }

  lemma {:induction false} ParseLastMember(key: Text, text: Text, value: Logical, rest: Text)
    requires ParseValue(text) == Some((value, [CLOSE_OBJECT] + rest))
    ensures ParseMembers(Quoted(key) + ([COLON] + text)) == Some((map[key := value], rest))
  {
    MemberHead(key, text);
    assert ([CLOSE_OBJECT] + rest)[1..] == rest;
  }

  lemma {:induction false} ParseMoreMembers(key: Text, text: Text, value: Logical, more: Text)
    requires ParseValue(text) == Some((value, [COMMA] + more)) && ParseMembers(more).Some?
    ensures ParseMembers(Quoted(key) + ([COLON] + text))
            == Some((map[key := value] + ParseMembers(more).value.0, ParseMembers(more).value.1))
  {
    MemberHead(key, text);
    assert ([COMMA] + more)[1..] == more;
  }

  lemma {:induction false} MemberHead(key: Text, after: Text)
    ensures var text := Quoted(key) + ([COLON] + after);
            && SkipSpace(text) == text && text[0] == QUOTE
            && ParseString(text[1..]) == Some((key, [COLON] + after))
            && SkipSpace([COLON] + after) == [COLON] + after && ([COLON] + after)[1..] == after
  {
    StringRoundTrip(key, [COLON] + after);
    var text := Quoted(key) + ([COLON] + after);
    assert text[1..] == Escape(key) + ([QUOTE] + ([COLON] + after));
  }

  predicate Begins(t: Text) {
    t != [] && t[0] !in {9, 10, 13, 32, CLOSE_ARRAY, CLOSE_OBJECT}
  }

  lemma {:induction false} BeginsWithText(v: Value)
    ensures Begins(Canonical(v))
  {
  }

  lemma {:induction false} ValueRoundTrip(v: Value, rest: Text)
    requires WellFormed(v) && Ends(rest)
    ensures ParseValue(Canonical(v) + rest) == Some((Meaning(v), rest))
    decreases v, 1, 0
  {
    match v
    case Number(text) =>
      TokenRoundTrip(text, rest);
    case Str(t) =>
      QuotedRoundTrip(t, rest);
    case Arr(items) =>
      ArrayRoundTrip(v, rest);
    case Obj(members) =>
      SortingKeepsMeaning(members);
      ObjectRoundTrip(v, rest);
    case _ =>
      LiteralRoundTrip(v, rest);
  }

  lemma {:induction false} ArrayRoundTrip(v: Value, rest: Text)
    requires v.Arr? && WellFormed(v)
    ensures ParseValue(Canonical(v) + rest) == Some((LArr(Meanings(v.items)), rest))
    decreases v, 0, |v.items| + 1
  {
    var body := JoinItems(v, v.items);
    if v.items != [] {
      ItemsRoundTrip(v, v.items, rest);
      BeginsWithText(v.items[0]);
    }
    ParseArrayStep(body + ([CLOSE_ARRAY] + rest), Meanings(v.items), rest);
    assert [OPEN_ARRAY] + body + [CLOSE_ARRAY] + rest == [OPEN_ARRAY] + (body + ([CLOSE_ARRAY] + rest));
  }

  lemma {:induction false} ObjectRoundTrip(v: Value, rest: Text)
    requires v.Obj? && WellFormed(v) && Ends(rest)
    ensures ParseValue(Canonical(v) + rest) == Some((LObj(MeaningOfMembers(SortDefined(v.members))), rest))
    decreases v, 0, |v.members| + 1
  {
    var sorted := SortDefined(v.members);
    var body := JoinMembers(v, sorted);
    if sorted != [] {
      SortedLength(v.members);
      MembersRoundTrip(v, sorted, rest);
    }
    ParseObjectStep(body + ([CLOSE_OBJECT] + rest), MeaningOfMembers(sorted), rest);
    assert [OPEN_OBJECT] + body + [CLOSE_OBJECT] + rest == [OPEN_OBJECT] + (body + ([CLOSE_OBJECT] + rest));
  }

  lemma SortedLength(ms: seq<Member>)
    ensures |SortDefined(ms)| <= |ms|
  {
    if ms != [] {
      SortedLength(ms[1..]);
      InsertLength(ms[0], SortDefined(ms[1..]));
    }
  }

  lemma InsertLength(m: Member, ms: seq<Member>)
    ensures |Insert(m, ms)| == |ms| + 1
  {
  }

  lemma {:induction false} JoinItemsSplit(v: Value, items: seq<Value>, tail: Text)
    requires v.Arr? && items != [] && forall e :: e in items ==> e in v.items
    ensures var after := if |items| == 1 then tail else [COMMA] + (JoinItems(v, items[1..]) + tail);
            JoinItems(v, items) + tail == Canonical(items[0]) + after
  {
    assert items[0] in v.items;
    if |items| == 1 {
      assert Canonical(items[0]) + [] == Canonical(items[0]);
    } else {
      var text, more := Canonical(items[0]), JoinItems(v, items[1..]);
      assert (text + ([COMMA] + more)) + tail == text + ([COMMA] + (more + tail));
    }
  }

  lemma {:induction false} ItemsRoundTrip(v: Value, items: seq<Value>, rest: Text)
    requires v.Arr? && WellFormed(v) && items != [] && forall e :: e in items ==> e in v.items
    ensures ParseItems(JoinItems(v, items) + ([CLOSE_ARRAY] + rest)) == Some((Meanings(items), rest))
    decreases v, 0, |items|
  {
    assert items[0] in v.items;
    JoinItemsSplit(v, items, [CLOSE_ARRAY] + rest);
    if |items| == 1 {
      assert items[1..] == [] && Meanings([]) == [];
      assert Meanings(items) == [Meaning(items[0])];
      ValueRoundTrip(items[0], [CLOSE_ARRAY] + rest);
      ParseLastItem(Canonical(items[0]) + ([CLOSE_ARRAY] + rest), Meaning(items[0]), rest);
    } else {
      var more := JoinItems(v, items[1..]) + ([CLOSE_ARRAY] + rest);
      ItemsRoundTrip(v, items[1..], rest);
      ValueRoundTrip(items[0], [COMMA] + more);
      ParseMoreItems(Canonical(items[0]) + ([COMMA] + more), Meaning(items[0]), more);
    }
  }

  lemma {:induction false} JoinSplit(v: Value, ms: seq<Member>, tail: Text)
    requires v.Obj? && ms != [] && forall e :: e in ms ==> e in v.members
    ensures ms[0] in v.members
    ensures var after := if |ms| == 1 then tail else [COMMA] + (JoinMembers(v, ms[1..]) + tail);
            JoinMembers(v, ms) + tail == Quoted(ms[0].key) + ([COLON] + (Canonical(ms[0].value) + after))
  {
    assert ms[0] in v.members;
    var head, text := Quoted(ms[0].key), Canonical(ms[0].value);
    var last := if |ms| == 1 then [] else [COMMA] + JoinMembers(v, ms[1..]);
    Rebracket(head, [COLON], text, last, tail);
    assert [] + tail == tail;
    if |ms| > 1 {
      assert last + tail == [COMMA] + (JoinMembers(v, ms[1..]) + tail);
    }
  }

  lemma Rebracket(a: Text, b: Text, c: Text, d: Text, e: Text)
    ensures a + b + c + d + e == a + (b + (c + (d + e)))
  {
  }

  lemma {:induction false} MembersRoundTrip(v: Value, ms: seq<Member>, rest: Text)
    requires v.Obj? && WellFormed(v) && ms != [] && forall e :: e in ms ==> e in v.members && !e.value.Undefined?
    ensures ParseMembers(JoinMembers(v, ms) + ([CLOSE_OBJECT] + rest)) == Some((MeaningOfMembers(ms), rest))
    decreases v, 0, |ms|
  {
    assert ms[0] in v.members && ms[0] in ms;
    if |ms| == 1 {
      ValueRoundTrip(ms[0].value, [CLOSE_OBJECT] + rest);
      LastMemberRoundTrip(v, ms, rest);
    } else {
      MembersRoundTrip(v, ms[1..], rest);
      ValueRoundTrip(ms[0].value, [COMMA] + (JoinMembers(v, ms[1..]) + ([CLOSE_OBJECT] + rest)));
      MoreMembersRoundTrip(v, ms, rest);
    }
  }

  lemma {:induction false} LastMemberRoundTrip(v: Value, ms: seq<Member>, rest: Text)
    requires v.Obj? && |ms| == 1 && ms[0] in v.members && !ms[0].value.Undefined?
    requires ParseValue(Canonical(ms[0].value) + ([CLOSE_OBJECT] + rest))
             == Some((Meaning(ms[0].value), [CLOSE_OBJECT] + rest))
    ensures ParseMembers(JoinMembers(v, ms) + ([CLOSE_OBJECT] + rest)) == Some((MeaningOfMembers(ms), rest))
  {
    JoinSplit(v, ms, [CLOSE_OBJECT] + rest);
    ParseLastMember(ms[0].key, Canonical(ms[0].value) + ([CLOSE_OBJECT] + rest), Meaning(ms[0].value), rest);
    ConsMeaning(ms[0], []);
    assert ms == [ms[0]] + [];
    assert map[ms[0].key := Meaning(ms[0].value)] + map[] == map[ms[0].key := Meaning(ms[0].value)];
  }

  lemma {:induction false} MoreMembersRoundTrip(v: Value, ms: seq<Member>, rest: Text)
    requires v.Obj? && |ms| > 1 && !ms[0].value.Undefined? && forall e :: e in ms ==> e in v.members
    requires ParseMembers(JoinMembers(v, ms[1..]) + ([CLOSE_OBJECT] + rest)) == Some((MeaningOfMembers(ms[1..]), rest))
    requires ParseValue(Canonical(ms[0].value) + ([COMMA] + (JoinMembers(v, ms[1..]) + ([CLOSE_OBJECT] + rest))))
             == Some((Meaning(ms[0].value), [COMMA] + (JoinMembers(v, ms[1..]) + ([CLOSE_OBJECT] + rest))))
    ensures ParseMembers(JoinMembers(v, ms) + ([CLOSE_OBJECT] + rest)) == Some((MeaningOfMembers(ms), rest))
  {
    var more := JoinMembers(v, ms[1..]) + ([CLOSE_OBJECT] + rest);
    JoinSplit(v, ms, [CLOSE_OBJECT] + rest);
    ParseMoreMembers(ms[0].key, Canonical(ms[0].value) + ([COMMA] + more), Meaning(ms[0].value), more);
    ConsMeaning(ms[0], ms[1..]);
    assert ms == [ms[0]] + ms[1..];
  }

  /** Parsing canonical text gives back what the value means, whatever the value. */
  lemma {:induction false} CanonicalRoundTrip(v: Value)
    requires WellFormed(v)
    ensures Parse(Canonical(v)) == Some(Meaning(v))
  {
    ValueRoundTrip(v, []);
    assert Canonical(v) + [] == Canonical(v);
  }

  // ---- independence of order ----

  lemma {:induction false} SameMeaningSameText(v: Value, w: Value)
    requires WellFormed(v) && WellFormed(w) && Meaning(v) == Meaning(w)
    ensures Canonical(v) == Canonical(w)
    decreases v, 1, 0
  {
    if v.Arr? && w.Arr? {
      SameItems(v, w, v.items, w.items);
    } else if v.Obj? && w.Obj? {
      var s, t := SortDefined(v.members), SortDefined(w.members);
      SortDefinedSorted(v.members);
      SortDefinedSorted(w.members);
      SortingKeepsMeaning(v.members);
      SortingKeepsMeaning(w.members);
      SameMembers(v, w, s, t);
    }
  }

  lemma {:induction false} SameItems(v: Value, w: Value, s: seq<Value>, t: seq<Value>)
    requires v.Arr? && w.Arr? && WellFormed(v) && WellFormed(w)
    requires (forall e :: e in s ==> e in v.items) && (forall e :: e in t ==> e in w.items)
    requires Meanings(s) == Meanings(t)
    ensures JoinItems(v, s) == JoinItems(w, t)
    decreases v, 0, |s|
  {
    if s != [] {
      assert Meanings(s)[0] == Meanings(t)[0];
      assert s[0] in v.items && t[0] in w.items;
      assert Meanings(s)[1..] == Meanings(s[1..]) && Meanings(t)[1..] == Meanings(t[1..]);
      SameMeaningSameText(s[0], t[0]);
      SameItems(v, w, s[1..], t[1..]);
    }
  }

  lemma {:induction false} SameMembers(v: Value, w: Value, s: seq<Member>, t: seq<Member>)
    requires v.Obj? && w.Obj? && WellFormed(v) && WellFormed(w)
    requires forall e :: e in s ==> e in v.members && !e.value.Undefined?
    requires forall e :: e in t ==> e in w.members && !e.value.Undefined?
    requires Sorted(s) && Sorted(t) && MeaningOfMembers(s) == MeaningOfMembers(t)
    ensures JoinMembers(v, s) == JoinMembers(w, t)
    decreases v, 0, |s|
  {
    if s == [] || t == [] {
      NoMembers(s);
      NoMembers(t);
    } else {
      assert s[0] in v.members && t[0] in w.members;
      FirstMember(s);
      FirstMember(t);
      LeastKey(s, t[0].key);
      LeastKey(t, s[0].key);
      SameMeaningSameText(s[0].value, t[0].value);
      SameMembers(v, w, s[1..], t[1..]);
    }
  }

  lemma {:induction false} NoMembers(s: seq<Member>)
    requires forall e :: e in s ==> !e.value.Undefined?
    ensures MeaningOfMembers(s) == map[] <==> s == []
  {
    if s != [] {
      assert s[0] in s;
      assert s[0].key in MeaningOfMembers(s);
    }
  }

  lemma {:induction false} FirstMember(s: seq<Member>)
    requires s != [] && Sorted(s) && forall e :: e in s ==> !e.value.Undefined?
    ensures s[0].key in MeaningOfMembers(s) && MeaningOfMembers(s)[s[0].key] == Meaning(s[0].value)
    ensures MeaningOfMembers(s[1..]) == MeaningOfMembers(s) - {s[0].key}
  {
    KeysOfMeaning(s[1..]);
    assert s[0] in s;
    assert s[0].key !in MeaningOfMembers(s[1..]) by {
      forall e | e in s[1..] ensures e.key != s[0].key {
        LessStrict(s[0].key, e.key);
      }
    }
  }

  lemma {:induction false} LeastKey(s: seq<Member>, key: Text)
    requires s != [] && Sorted(s) && key in MeaningOfMembers(s)
    ensures key == s[0].key || (Less(s[0].key, key) && !Less(key, s[0].key))
  {
    KeysOfMeaning(s);
    var e :| e in s && e.key == key;
    if key != s[0].key {
      var i :| 0 <= i < |s| && s[i] == e;
      LessStrict(s[0].key, key);
    }
  }

  /** Three pairs of different values with one text each: the text tells values apart only up to their meaning. */
  lemma DifferentValuesSameText(key: Text)
    ensures Arr([Undefined]) != Arr([Null]) && Canonical(Arr([Undefined])) == Canonical(Arr([Null]))
    ensures Arr([NonFinite]) != Arr([Null]) && Canonical(Arr([NonFinite])) == Canonical(Arr([Null]))
    ensures Obj([Member(key, Undefined)]) != Obj([]) && Canonical(Obj([Member(key, Undefined)])) == Canonical(Obj([]))
  {
    var undefined, nonFinite, null0, absent: seq<Member> := [Undefined], [NonFinite], [Null], [];
    var missing := [Member(key, Undefined)];
    assert Meanings(undefined[1..]) == Meanings(nonFinite[1..]) == Meanings(null0[1..]) == [];
    assert Meaning(Arr(undefined)) == Meaning(Arr(nonFinite)) == Meaning(Arr(null0));
    assert MeaningOfMembers(missing[1..]) == MeaningOfMembers(absent);
    CanonicalFaithful(Arr(undefined), Arr(null0));
    CanonicalFaithful(Arr(nonFinite), Arr(null0));
    CanonicalFaithful(Obj(missing), Obj(absent));
  }

  /** The text is a faithful name for the meaning: equal texts exactly when equal meanings. */
  lemma {:induction false} CanonicalFaithful(v: Value, w: Value)
    requires WellFormed(v) && WellFormed(w)
    ensures Canonical(v) == Canonical(w) <==> Meaning(v) == Meaning(w)
  {
    CanonicalRoundTrip(v);
    CanonicalRoundTrip(w);
    if Meaning(v) == Meaning(w) {
      SameMeaningSameText(v, w);
    }
  }
}
