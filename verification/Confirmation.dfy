/**
  The confirmation tag: a MAC, keyed by the pairing code, over both hellos in an order both
  sides agree on. The MAC is symbolic: equal tags come from equal keys and equal bytes.
 */
module Confirmation {
  import opened Common
  import Json
  import Utf8

  type Text = Json.Text

  type PairKey = nat

  /** A signed hello; the signature covers exactly these fields, so equal hellos carry equal signatures. */
  datatype Hello = Hello(deviceId: Text, name: Text, platform: Text, idPub: Text, boxPub: Text, nonce: Text)

  datatype Tag = Mac(key: PairKey, message: Bytes)

  const BOX_PUB: Text := [98, 111, 120, 80, 117, 98]
  const CONTEXT: Text := [99, 111, 110, 116, 101, 120, 116]
  const DEVICE_ID: Text := [100, 101, 118, 105, 99, 101, 73, 100]
  const ID_PUB: Text := [105, 100, 80, 117, 98]
  const NAME: Text := [110, 97, 109, 101]
  const NONCE: Text := [110, 111, 110, 99, 101]
  const PLATFORM: Text := [112, 108, 97, 116, 102, 111, 114, 109]
  const TRANSCRIPT: Text := [116, 114, 97, 110, 115, 99, 114, 105, 112, 116]
  const V: Text := [118]
  // "syncdrop/v2/pair-confirm"
  const CONFIRM_CONTEXT: Text := [115, 121, 110, 99, 100, 114, 111, 112, 47, 118, 50, 47,
                                  112, 97, 105, 114, 45, 99, 111, 110, 102, 105, 114, 109]

  function HelloBody(h: Hello): Json.Value {
    Json.Obj([
      Json.Member(V, Json.Number([50])),
      Json.Member(DEVICE_ID, Json.Str(h.deviceId)),
      Json.Member(NAME, Json.Str(h.name)),
      Json.Member(PLATFORM, Json.Str(h.platform)),
      Json.Member(ID_PUB, Json.Str(h.idPub)),
      Json.Member(BOX_PUB, Json.Str(h.boxPub)),
      Json.Member(NONCE, Json.Str(h.nonce))])
  }

  /** Ordered by device id rather than by arrival. */
  function HelloTranscript(a: Hello, b: Hello): seq<Hello> {
    if Json.Less(a.deviceId, b.deviceId) then [a, b] else [b, a]
  }

  function ConfirmationBody(a: Hello, b: Hello): Json.Value {
    var ordered := HelloTranscript(a, b);
    Json.Obj([
      Json.Member(CONTEXT, Json.Str(CONFIRM_CONTEXT)),
      Json.Member(TRANSCRIPT, Json.Arr([HelloBody(ordered[0]), HelloBody(ordered[1])]))])
  }

  function ConfirmationTag(key: PairKey, a: Hello, b: Hello): Tag {
    Mac(key, Utf8.CanonicalBytes(ConfirmationBody(a, b)))
  }

  /** Neither side has to know who went first. */
  lemma TagSymmetric(key: PairKey, a: Hello, b: Hello)
    requires a.deviceId != b.deviceId
    ensures ConfirmationTag(key, a, b) == ConfirmationTag(key, b, a)
  {
    Json.LessTotal(a.deviceId, b.deviceId);
    if Json.Less(a.deviceId, b.deviceId) {
      Json.LessStrict(a.deviceId, b.deviceId);
    }
  }

  lemma KeysDiffer()
    ensures |V| == 1 && |NAME| == 4 && |ID_PUB| == 5 && |NONCE| == 5 && |BOX_PUB| == 6
    ensures |DEVICE_ID| == 8 && |PLATFORM| == 8 && |CONTEXT| == 7 && |TRANSCRIPT| == 10
    ensures ID_PUB != NONCE && DEVICE_ID != PLATFORM
  {
    assert ID_PUB[0] != NONCE[0] && DEVICE_ID[0] != PLATFORM[0];
  }

  lemma WellFormedBodies(a: Hello, b: Hello)
    ensures Json.WellFormed(HelloBody(a)) && Json.WellFormed(ConfirmationBody(a, b))
  {
    KeysDiffer();
    assert forall h :: Json.DistinctKeys(HelloBody(h).members);
    assert forall h :: Json.WellFormed(HelloBody(h));
    var members := ConfirmationBody(a, b).members;
    assert Json.DistinctKeys(members);
    assert Json.WellFormed(members[1].value);
  }

  /** What an object means at one of its keys. */
  lemma {:induction false} Lookup(ms: seq<Json.Member>, i: nat)
    requires i < |ms| && Json.DistinctKeys(ms) && !ms[i].value.Undefined?
    ensures ms[i].key in Json.MeaningOfMembers(ms)
    ensures Json.MeaningOfMembers(ms)[ms[i].key] == Json.Meaning(ms[i].value)
  {
    if i > 0 {
      Lookup(ms[1..], i - 1);
    } else {
      assert ms[0].key !in Json.MeaningOfMembers(ms[1..]) by {
        Json.KeysOfMeaning(ms[1..]);
      }
    }
  }

  lemma SameField(ms: seq<Json.Member>, ns: seq<Json.Member>, i: nat)
    requires i < |ms| == |ns| && Json.DistinctKeys(ms) && Json.DistinctKeys(ns)
    requires !ms[i].value.Undefined? && !ns[i].value.Undefined? && ms[i].key == ns[i].key
    requires Json.MeaningOfMembers(ms) == Json.MeaningOfMembers(ns)
    ensures Json.Meaning(ms[i].value) == Json.Meaning(ns[i].value)
  {
    Lookup(ms, i);
    Lookup(ns, i);
  }

  lemma {:induction false} SameText(ms: seq<Json.Member>, ns: seq<Json.Member>, i: nat)
    requires i < |ms| == |ns| && Json.DistinctKeys(ms) && Json.DistinctKeys(ns)
    requires ms[i].value.Str? && ns[i].value.Str? && ms[i].key == ns[i].key
    requires Json.MeaningOfMembers(ms) == Json.MeaningOfMembers(ns)
    ensures ms[i].value == ns[i].value
  {
    hide Json.MeaningOfMembers, Json.DistinctKeys;
    SameField(ms, ns, i);
  }

  lemma BodyMembers(h: Hello)
    ensures Json.DistinctKeys(HelloBody(h).members)
    ensures Json.Meaning(HelloBody(h)) == Json.LObj(Json.MeaningOfMembers(HelloBody(h).members))
  {
    hide Json.MeaningOfMembers;
    WellFormedBodies(h, h);
    KeysDiffer();
  }

  lemma HelloFaithful(g: Hello, h: Hello)
    requires Json.Meaning(HelloBody(g)) == Json.Meaning(HelloBody(h))
    ensures g == h
  {
    hide Json.Meaning, Json.MeaningOfMembers, Json.DistinctKeys;
    BodyMembers(g);
    BodyMembers(h);
    var ms, ns := HelloBody(g).members, HelloBody(h).members;
    SameText(ms, ns, 1);
    SameText(ms, ns, 2);
    SameText(ms, ns, 3);
    SameText(ms, ns, 4);
    SameText(ms, ns, 5);
    SameText(ms, ns, 6);
  }

  /** A tag names one key and one unordered pair of hellos. */
  lemma TagFaithful(key: PairKey, a: Hello, b: Hello, key': PairKey, c: Hello, d: Hello)
    requires ConfirmationTag(key, a, b) == ConfirmationTag(key', c, d)
    ensures key == key' && ((a == c && b == d) || (a == d && b == c))
  {
    hide HelloBody, Json.Less, Json.Canonical, Utf8.Encode;
    WellFormedBodies(a, b);
    WellFormedBodies(c, d);
    Utf8.CanonicalBytesFaithful(ConfirmationBody(a, b), ConfirmationBody(c, d));
    var ms, ns := ConfirmationBody(a, b).members, ConfirmationBody(c, d).members;
    SameField(ms, ns, 1);
    var s, t := HelloTranscript(a, b), HelloTranscript(c, d);
    SamePair(HelloBody(s[0]), HelloBody(s[1]), HelloBody(t[0]), HelloBody(t[1]));
    HelloFaithful(s[0], t[0]);
    HelloFaithful(s[1], t[1]);
  }

  lemma PairMeaning(a: Json.Value, b: Json.Value)
    ensures Json.Meanings([a, b]) == [Json.Meaning(a), Json.Meaning(b)]
  {
    assert [a, b][1..] == [b] && [b][1..] == [];
    assert Json.Meanings([b]) == [Json.Meaning(b)];
  }

  lemma {:induction false} SamePair(a: Json.Value, b: Json.Value, c: Json.Value, d: Json.Value)
    requires Json.Meanings([a, b]) == Json.Meanings([c, d])
    ensures Json.Meaning(a) == Json.Meaning(c) && Json.Meaning(b) == Json.Meaning(d)
  {
    PairMeaning(a, b);
    PairMeaning(c, d);
    var s, t := Json.Meanings([a, b]), Json.Meanings([c, d]);
    assert s[0] == t[0] && s[1] == t[1];
  }

  // ---- the text, spelled out ----

  /** Plain characters as code units. */
  function Ascii(s: string): (t: Text)
    requires forall i :: 0 <= i < |s| ==> s[i] as int < 128
    ensures |t| == |s|
  {
    seq(|s|, i requires 0 <= i < |s| => s[i] as int)
  }

  function Named(name: string, value: Text): Text
    requires forall i :: 0 <= i < |name| ==> name[i] as int < 128
  {
    Ascii("\"") + Ascii(name) + Ascii("\":") + value
  }

  /** A hello as it is signed and authenticated: its fields in the order of their names, and no space. */
  function HelloText(h: Hello): Text {
    Ascii("{")
    + (Named("boxPub", Json.Quoted(h.boxPub)) + (Ascii(",")
    + (Named("deviceId", Json.Quoted(h.deviceId)) + (Ascii(",")
    + (Named("idPub", Json.Quoted(h.idPub)) + (Ascii(",")
    + (Named("name", Json.Quoted(h.name)) + (Ascii(",")
    + (Named("nonce", Json.Quoted(h.nonce)) + (Ascii(",")
    + (Named("platform", Json.Quoted(h.platform)) + (Ascii(",")
    + Named("v", Ascii("2"))))))))))))))
    + Ascii("}")
  }

  /** What the tag is computed over: the context's name, then both hellos, the lesser device id first. */
  function TranscriptText(first: Hello, second: Hello): Text {
    Ascii("{")
    + (Named("context", Ascii("\"") + Ascii("syncdrop/v2/pair-confirm") + Ascii("\"")) + (Ascii(",")
    + Named("transcript", Ascii("[") + (HelloText(first) + (Ascii(",") + HelloText(second))) + Ascii("]"))))
    + Ascii("}")
  }

  lemma Names()
    ensures BOX_PUB == Ascii("boxPub") && DEVICE_ID == Ascii("deviceId") && ID_PUB == Ascii("idPub")
    ensures NAME == Ascii("name") && NONCE == Ascii("nonce") && PLATFORM == Ascii("platform") && V == Ascii("v")
    ensures CONTEXT == Ascii("context") && TRANSCRIPT == Ascii("transcript")
    ensures CONFIRM_CONTEXT == Ascii("syncdrop/v2/pair-confirm")
  {
  }

  predicate IsPlain(t: Text) {
    forall i :: 0 <= i < |t| ==> 32 <= t[i] < 128 && t[i] != Json.QUOTE && t[i] != Json.BACKSLASH
  }

  lemma {:induction false} PlainQuoted(t: Text)
    requires IsPlain(t)
    ensures Json.Escape(t) == t
  {
    if t != [] {
      PlainQuoted(t[1..]);
      assert t == [t[0]] + t[1..];
    }
  }

  function FieldsInOrder(h: Hello): seq<Json.Member> {
    [Json.Member(BOX_PUB, Json.Str(h.boxPub)), Json.Member(DEVICE_ID, Json.Str(h.deviceId)),
     Json.Member(ID_PUB, Json.Str(h.idPub)), Json.Member(NAME, Json.Str(h.name)),
     Json.Member(NONCE, Json.Str(h.nonce)), Json.Member(PLATFORM, Json.Str(h.platform)),
     Json.Member(V, Json.Number([50]))]
  }

  lemma Before(a: Text, b: Text)
    requires a != [] && b != []
    ensures a[0] < b[0] ==> Json.Less(a, b)
    ensures a[0] == b[0] && |a| > 1 && |b| > 1 && a[1] < b[1] ==> Json.Less(a, b)
  {
    if a[0] == b[0] && |a| > 1 && |b| > 1 && a[1] < b[1] {
      assert Json.Less(a[1..], b[1..]);
    }
  }

  lemma SomeMember(ms: seq<Json.Member>)
    ensures ms == [] || exists m :: m in ms
  {
    if ms != [] {
      assert ms[0] in ms;
    }
  }

  /** Members in order of their keys can be put in that order in one way only. */
  lemma {:induction false} SortedOnce(ms: seq<Json.Member>, ns: seq<Json.Member>)
    requires Json.Sorted(ms) && Json.Sorted(ns) && forall m :: m in ms <==> m in ns
    ensures ms == ns
  {
    if ms == [] {
      SomeMember(ns);
    } else {
      assert ms[0] in ns;
      assert ns[0] in ms;
      var i :| 0 <= i < |ns| && ns[i] == ms[0];
      var j :| 0 <= j < |ms| && ms[j] == ns[0];
      if i > 0 && j > 0 {
        Json.LessStrict(ns[0].key, ns[i].key);
      }
      assert ms[0] == ns[0];
      Rest(ms, ns);
      SortedOnce(ms[1..], ns[1..]);
    }
  }

  lemma Rest(ms: seq<Json.Member>, ns: seq<Json.Member>)
    requires ms != [] && ns != [] && ms[0] == ns[0]
    requires Json.Sorted(ms) && Json.Sorted(ns) && forall m :: m in ms <==> m in ns
    ensures Json.Sorted(ms[1..]) && Json.Sorted(ns[1..]) && forall m :: m in ms[1..] <==> m in ns[1..]
  {
    assert ms == [ms[0]] + ms[1..] && ns == [ns[0]] + ns[1..];
    forall m
      ensures m in ms[1..] <==> m in ns[1..]
    {
      RestOnce(ms, m);
      RestOnce(ns, m);
      assert m in ms <==> m in ns;
    }
  }

  lemma RestOnce(ms: seq<Json.Member>, m: Json.Member)
    requires ms != [] && Json.Sorted(ms)
    ensures m in ms[1..] <==> m in ms && m != ms[0]
  {
    assert ms == [ms[0]] + ms[1..];
    if m in ms[1..] {
      var i :| 0 < i < |ms| && ms[i] == m;
      Json.LessStrict(ms[0].key, m.key);
    }
  }

  lemma {:induction false} Ascending(ms: seq<Json.Member>)
    requires forall i :: 0 < i < |ms| ==> Json.Less(ms[i - 1].key, ms[i].key)
    ensures Json.Sorted(ms)
  {
    hide Json.Less;
    if ms != [] {
      var n := |ms| - 1;
      Ascending(ms[..n]);
      forall i | 0 <= i < n
        ensures Json.Less(ms[i].key, ms[n].key)
      {
        if i < n - 1 {
          assert Json.Less(ms[..n][i].key, ms[..n][n - 1].key);
          Json.LessTransitive(ms[i].key, ms[n - 1].key, ms[n].key);
        }
      }
      forall i, j | 0 <= i < j < |ms|
        ensures Json.Less(ms[i].key, ms[j].key)
      {
        if j < n {
          assert Json.Less(ms[..n][i].key, ms[..n][j].key);
        }
      }
    }
  }

  lemma KeysAscend()
    ensures Json.Less(BOX_PUB, DEVICE_ID) && Json.Less(DEVICE_ID, ID_PUB) && Json.Less(ID_PUB, NAME)
    ensures Json.Less(NAME, NONCE) && Json.Less(NONCE, PLATFORM) && Json.Less(PLATFORM, V)
    ensures Json.Less(CONTEXT, TRANSCRIPT)
  {
    Before(BOX_PUB, DEVICE_ID);
    Before(DEVICE_ID, ID_PUB);
    Before(ID_PUB, NAME);
    Before(NAME, NONCE);
    Before(NONCE, PLATFORM);
    Before(PLATFORM, V);
    Before(CONTEXT, TRANSCRIPT);
  }

  lemma SameFields(h: Hello)
    ensures forall m :: m in FieldsInOrder(h) <==> m in HelloBody(h).members && !m.value.Undefined?
  {
    var ms, ns := HelloBody(h).members, FieldsInOrder(h);
    assert ns == [ms[5], ms[1], ms[4], ms[2], ms[6], ms[3], ms[0]];
    assert ms == [ns[6], ns[1], ns[3], ns[5], ns[2], ns[0], ns[4]];
  }

  lemma FieldsSorted(h: Hello)
    ensures Json.SortDefined(HelloBody(h).members) == FieldsInOrder(h)
  {
    hide Json.Less, HelloBody, Json.Sorted, Json.SortDefined;
    var ordered := FieldsInOrder(h);
    KeysAscend();
    Ascending(ordered);
    HelloDistinct(h);
    Json.SortDefinedSorted(HelloBody(h).members);
    SameFields(h);
    SortedOnce(Json.SortDefined(HelloBody(h).members), ordered);
  }

  lemma HelloDistinct(h: Hello)
    ensures HelloBody(h).Obj? && Json.DistinctKeys(HelloBody(h).members)
  {
    WellFormedBodies(h, h);
  }

  function Field(key: Text, value: Text): Text {
    [Json.QUOTE] + key + [Json.QUOTE, Json.COLON] + value
  }

  lemma StillMembers(v: Json.Value, ms: seq<Json.Member>)
    requires v.Obj? && ms != [] && forall e :: e in ms ==> e in v.members
    ensures forall e :: e in ms[1..] ==> e in v.members
  {
    assert forall e :: e in ms[1..] ==> e in ms;
  }

  lemma OneJoined(v: Json.Value, ms: seq<Json.Member>)
    requires v.Obj? && ms != [] && (forall e :: e in ms ==> e in v.members)
    requires forall e :: e in ms[1..] ==> e in v.members
    ensures Json.JoinMembers(v, ms) == Json.Quoted(ms[0].key) + [Json.COLON] + Json.Canonical(ms[0].value)
                                       + if |ms| == 1 then [] else [Json.COMMA] + Json.JoinMembers(v, ms[1..])
  {
    hide Json.Canonical, Json.Quoted;
  }

  lemma OneField(v: Json.Value, ms: seq<Json.Member>)
    requires v.Obj? && ms != [] && (forall e :: e in ms ==> e in v.members) && IsPlain(ms[0].key)
    ensures forall e :: e in ms[1..] ==> e in v.members
    ensures Json.JoinMembers(v, ms) == Field(ms[0].key, Json.Canonical(ms[0].value))
                                       + if |ms| == 1 then [] else [Json.COMMA] + Json.JoinMembers(v, ms[1..])
  {
    hide Json.Canonical, Json.Quoted, IsPlain, Json.JoinMembers;
    var key := ms[0].key;
    StillMembers(v, ms);
    OneJoined(v, ms);
    QuotedPlain(key);
    assert Json.Quoted(key) + [Json.COLON] == [Json.QUOTE] + key + [Json.QUOTE, Json.COLON];
  }

  lemma QuotedPlain(t: Text)
    requires IsPlain(t)
    ensures Json.Quoted(t) == [Json.QUOTE] + t + [Json.QUOTE]
  {
    PlainQuoted(t);
  }

  lemma LastFields(v: Json.Value, h: Hello)
    requires v.Obj? && forall e :: e in FieldsInOrder(h) ==> e in v.members
    ensures forall e :: e in FieldsInOrder(h)[4..] ==> e in v.members
    ensures Json.JoinMembers(v, FieldsInOrder(h)[4..]) ==
            Field(NONCE, Json.Quoted(h.nonce)) + ([Json.COMMA] +
            (Field(PLATFORM, Json.Quoted(h.platform)) + ([Json.COMMA] + Field(V, [50]))))
  {
    hide Field, Json.JoinMembers, Json.Quoted;
    var ms := FieldsInOrder(h);
    var n := ms[4..];
    OneField(v, n);
    OneField(v, n[1..]);
    OneField(v, n[1..][1..]);
    assert Json.Canonical(n[0].value) == Json.Quoted(h.nonce);
    assert Json.Canonical(n[1..][0].value) == Json.Quoted(h.platform);
    assert Json.Canonical(n[1..][1..][0].value) == [50];
  }

  lemma FirstFields(v: Json.Value, h: Hello)
    requires v.Obj? && forall e :: e in FieldsInOrder(h) ==> e in v.members
    ensures forall e :: e in FieldsInOrder(h)[4..] ==> e in v.members
    ensures Json.JoinMembers(v, FieldsInOrder(h)) ==
            Field(BOX_PUB, Json.Quoted(h.boxPub)) + ([Json.COMMA] +
            (Field(DEVICE_ID, Json.Quoted(h.deviceId)) + ([Json.COMMA] +
            (Field(ID_PUB, Json.Quoted(h.idPub)) + ([Json.COMMA] +
            (Field(NAME, Json.Quoted(h.name)) + ([Json.COMMA] +
            Json.JoinMembers(v, FieldsInOrder(h)[4..]))))))))
  {
    hide Field, Json.JoinMembers, Json.Quoted;
    var ms := FieldsInOrder(h);
    OneField(v, ms);
    OneField(v, ms[1..]);
    OneField(v, ms[1..][1..]);
    OneField(v, ms[1..][1..][1..]);
    assert ms[1..][1..][1..][1..] == ms[4..];
    assert Json.Canonical(ms[0].value) == Json.Quoted(h.boxPub);
    assert Json.Canonical(ms[1..][0].value) == Json.Quoted(h.deviceId);
    assert Json.Canonical(ms[1..][1..][0].value) == Json.Quoted(h.idPub);
    assert Json.Canonical(ms[1..][1..][1..][0].value) == Json.Quoted(h.name);
  }

  lemma NamedField(name: string, key: Text, value: Text)
    requires (forall i :: 0 <= i < |name| ==> name[i] as int < 128) && key == Ascii(name)
    ensures Field(key, value) == Named(name, value)
  {
    assert Ascii("\"") == [Json.QUOTE] && Ascii("\":") == [Json.QUOTE, Json.COLON];
  }

  lemma Marks()
    ensures Ascii("{") == [Json.OPEN_OBJECT] && Ascii("}") == [Json.CLOSE_OBJECT] && Ascii(",") == [Json.COMMA]
    ensures Ascii("[") == [Json.OPEN_ARRAY] && Ascii("]") == [Json.CLOSE_ARRAY] && Ascii("2") == [50]
    ensures Ascii("\"") == [Json.QUOTE]
  {
  }

  lemma HelloJoined(h: Hello)
    ensures var v := HelloBody(h);
            && v.Obj? && (forall e :: e in FieldsInOrder(h) ==> e in v.members)
            && Json.Canonical(v) == [Json.OPEN_OBJECT] + Json.JoinMembers(v, FieldsInOrder(h)) + [Json.CLOSE_OBJECT]
  {
    hide Json.JoinMembers, FieldsInOrder, Json.SortDefined;
    FieldsSorted(h);
    SameFields(h);
  }

  lemma HelloSpelled(h: Hello)
    ensures Json.Canonical(HelloBody(h)) == HelloText(h)
  {
    hide Field, Named, Json.JoinMembers, Json.Quoted, Ascii, FieldsInOrder, HelloBody, Json.Canonical;
    var v := HelloBody(h);
    HelloJoined(h);
    FirstFields(v, h);
    LastFields(v, h);
    Names();
    Marks();
    NamedField("boxPub", BOX_PUB, Json.Quoted(h.boxPub));
    NamedField("deviceId", DEVICE_ID, Json.Quoted(h.deviceId));
    NamedField("idPub", ID_PUB, Json.Quoted(h.idPub));
    NamedField("name", NAME, Json.Quoted(h.name));
    NamedField("nonce", NONCE, Json.Quoted(h.nonce));
    NamedField("platform", PLATFORM, Json.Quoted(h.platform));
    NamedField("v", V, [50]);
  }

  lemma PairSpelled(v: Json.Value, a: Json.Value, b: Json.Value)
    requires v == Json.Arr([a, b])
    ensures Json.Canonical(v) ==
            [Json.OPEN_ARRAY] + (Json.Canonical(a) + ([Json.COMMA] + Json.Canonical(b))) + [Json.CLOSE_ARRAY]
  {
    var items := [a, b];
    assert items[1..] == [b];
    assert Json.JoinItems(v, [b]) == Json.Canonical(b) + [] == Json.Canonical(b);
    assert Json.JoinItems(v, items) == Json.Canonical(a) + ([Json.COMMA] + Json.JoinItems(v, items[1..]));
  }

  /**
    The bytes a confirmation tag is made over, to the character: both hellos with every signed field of each, the
    device with the lesser id first, under the name of the exchange.
   */
  lemma {:induction false} TagText(key: PairKey, a: Hello, b: Hello)
    requires a.deviceId != b.deviceId
    ensures ConfirmationTag(key, a, b) ==
            Mac(key, Utf8.Encode(if Json.Less(a.deviceId, b.deviceId) then TranscriptText(a, b)
                                 else TranscriptText(b, a)))
  {
    hide Field, Named, Json.JoinMembers, Json.Quoted, Ascii, Json.Less, HelloText, HelloBody, Utf8.Encode;
    var order := HelloTranscript(a, b);
    var v := ConfirmationBody(a, b);
    var pair := v.members[1].value;
    HelloSpelled(a);
    HelloSpelled(b);
    PairSpelled(pair, HelloBody(order[0]), HelloBody(order[1]));
    BodySorted(a, b);
    TranscriptFields(v, pair);
    Names();
    Marks();
    NamedField("context", CONTEXT, [Json.QUOTE] + CONFIRM_CONTEXT + [Json.QUOTE]);
    NamedField("transcript", TRANSCRIPT, Json.Canonical(pair));
  }

  lemma BodySorted(a: Hello, b: Hello)
    ensures var ms := ConfirmationBody(a, b).members; Json.SortDefined(ms) == ms
  {
    hide HelloBody, Json.Less;
    var ms := ConfirmationBody(a, b).members;
    KeysAscend();
    Ascending(ms);
    WellFormedBodies(a, b);
    Json.SortDefinedSorted(ms);
    SortedOnce(Json.SortDefined(ms), ms);
  }

  lemma PlainNames()
    ensures IsPlain(CONTEXT) && IsPlain(TRANSCRIPT) && IsPlain(CONFIRM_CONTEXT)
  {
  }

  lemma TranscriptFields(v: Json.Value, pair: Json.Value)
    requires v.Obj? && v.members == [Json.Member(CONTEXT, Json.Str(CONFIRM_CONTEXT)), Json.Member(TRANSCRIPT, pair)]
    ensures Json.JoinMembers(v, v.members) ==
            Field(CONTEXT, [Json.QUOTE] + CONFIRM_CONTEXT + [Json.QUOTE])
            + ([Json.COMMA] + Field(TRANSCRIPT, Json.Canonical(pair)))
  {
    hide Field, Json.JoinMembers, Json.Quoted, IsPlain;
    var ms := v.members;
    PlainNames();
    OneField(v, ms);
    OneField(v, ms[1..]);
    assert Json.Canonical(ms[0].value) == Json.Quoted(CONFIRM_CONTEXT);
    QuotedPlain(CONFIRM_CONTEXT);
  }
}
