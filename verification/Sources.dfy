/**
  The windowed source, which reads ahead and serves slices, and the reader it is stacked on when
  another app shared the file: random access over a stream that only goes forward. A read of the source
  stops at its fetch, and other reads may come in between, so it is modelled as steps.
 */
module Sources {
  import opened Common

  const SOURCE_WINDOW: nat := 4 * 1024 * 1024

  /** What any read is meant to return: the range, cut off where the file ends. */
  function Range(file: Bytes, offset: nat, end: nat): Bytes {
    if end <= offset || |file| <= offset then [] else file[offset..Min(end, |file|)]
  }

  /** An index into a typed array: past the end is the end, and a negative one counts from there. */
  function Clamp(i: int, n: nat): nat {
    if i < 0 then Max(n + i, 0) else Min(i, n)
  }

  function Subarray(window: Bytes, begin: int, end: int): Bytes {
    var b, e := Clamp(begin, |window|), Clamp(end, |window|);
    if b <= e then window[b..e] else []
  }

  /** The promise asked of a fetch: at least the length asked for, unless the file ends first. */
  ghost predicate Fetched(file: Bytes, offset: nat, length: nat, window: Bytes) {
    && |Range(file, offset, offset + length)| <= |window|
    && window == Range(file, offset, offset + |window|)
  }

  // ---- the source as a machine ----

  /** A read that waits for its fetch. */
  datatype Fetch = Fetch(offset: nat, end: nat, length: nat)

  /** `start` is where the source takes its window to begin, `base` where the window was in fact fetched from. */
  datatype Source = Source(window: Option<Bytes>, start: nat, base: nat, pending: map<nat, Fetch>)

  const UNREAD := Source(None, 0, 0, map[])

  /** A read begins, its fetch is answered, or its fetch fails; `id` names the call. */
  datatype Event = Asks(id: nat, offset: nat, length: nat) | Answers(id: nat, bytes: Bytes) | Fails(id: nat)

  datatype Outcome = Returns(offset: nat, end: nat, bytes: Bytes) | Throws | Waits

  function End(size: nat, offset: nat, length: nat): nat {
    Min(offset + length, size)
  }

  /** Whether a read has to go to the file: it wants bytes, and not all of them are in the window. */
  predicate Needs(s: Source, size: nat, offset: nat, length: nat) {
    var end := End(size, offset, length);
    offset < end && (s.window.None? || offset < s.start || end > s.start + |s.window.value|)
  }

  function FetchLength(size: nat, offset: nat, length: nat): nat
    requires offset < size
  {
    Min(Max(SOURCE_WINDOW, length), size - offset)
  }

  /** The window's place is noted before the fetch, its bytes after. */
  function Ask(s: Source, size: nat, id: nat, offset: nat, length: nat): (Source, Outcome) {
    var end := End(size, offset, length);
    if end <= offset then (s, Returns(offset, end, []))
    else if Needs(s, size, offset, length) then
      (s.(start := offset, pending := s.pending[id := Fetch(offset, end, FetchLength(size, offset, length))]), Waits)
    else (s, Returns(offset, end, Subarray(s.window.value, offset - s.start, end - s.start)))
  }

  function Answer(s: Source, id: nat, bytes: Bytes): (Source, Outcome)
    requires id in s.pending
  {
    var f := s.pending[id];
    (s.(window := Some(bytes), base := f.offset, pending := s.pending - {id}),
     Returns(f.offset, f.end, if bytes == [] then [] else Subarray(bytes, f.offset - s.start, f.end - s.start)))
  }

  function Step(s: Source, size: nat, e: Event): (Source, Outcome) {
    match e
    case Asks(id, offset, length) => if id in s.pending then (s, Waits) else Ask(s, size, id, offset, length)
    case Answers(id, bytes) => if id in s.pending then Answer(s, id, bytes) else (s, Waits)
    case Fails(id) => if id in s.pending then (s.(pending := s.pending - {id}), Throws) else (s, Waits)
  }

  // ---- runs over a file ----

  /** What befalls a source, whatever its file holds: a fetch that arrives brings what it must, and `more`. */
  datatype Happening = Reads(id: nat, offset: nat, length: nat) | Arrives(id: nat, more: nat) | Breaks(id: nat)

  function EventOf(file: Bytes, s: Source, h: Happening): Event {
    match h
    case Reads(id, offset, length) => Asks(id, offset, length)
    case Arrives(id, more) =>
      if id !in s.pending then Answers(id, [])
      else
        var f := s.pending[id];
        Answers(id, Range(file, f.offset, f.offset + f.length + more))
    case Breaks(id) => Fails(id)
  }

  /** Nothing an honest fetch can answer is left out. */
  lemma AnyHonestAnswer(file: Bytes, s: Source, id: nat, bytes: Bytes)
    requires id in s.pending && Fetched(file, s.pending[id].offset, s.pending[id].length, bytes)
    ensures exists more: nat :: EventOf(file, s, Arrives(id, more)) == Answers(id, bytes)
  {
    var f := s.pending[id];
    var more: nat := Max(|bytes| - f.length, 0);
    assert EventOf(file, s, Arrives(id, more)) == Answers(id, bytes);
  }

  function Run(file: Bytes, size: nat, hs: seq<Happening>): Source {
    if hs == [] then UNREAD
    else
      var before, h := Run(file, size, hs[..|hs| - 1]), hs[|hs| - 1];
      Step(before, size, EventOf(file, before, h)).0
  }

  /** What comes of happening h after hs. */
  function Then(file: Bytes, size: nat, hs: seq<Happening>, h: Happening): (Source, Outcome) {
    var s := Run(file, size, hs);
    Step(s, size, EventOf(file, s, h))
  }

  ghost predicate Fits(size: nat, f: Fetch) {
    f.offset < f.end <= f.offset + f.length && f.end <= size
  }

  /** The window holds what the file holds at its base, and every fetch asks for all its read wants. */
  ghost predicate Genuine(file: Bytes, size: nat, s: Source) {
    && (s.window.Some? ==> s.start < size && s.window.value == Range(file, s.base, s.base + |s.window.value|))
    && (forall id :: id in s.pending ==> Fits(size, s.pending[id]))
    && (s.pending != map[] ==> s.start < size)
  }

  /** A fetch that is answered is answered honestly. */
  ghost predicate Honest(file: Bytes, s: Source, e: Event) {
    e.Answers? && e.id in s.pending ==> Fetched(file, s.pending[e.id].offset, s.pending[e.id].length, e.bytes)
  }

  lemma EventHonest(file: Bytes, s: Source, h: Happening)
    ensures Honest(file, s, EventOf(file, s, h))
  {
  }

  lemma StepGenuine(file: Bytes, s: Source, size: nat, e: Event)
    requires Genuine(file, size, s) && Honest(file, s, e)
    ensures Genuine(file, size, Step(s, size, e).0)
  {
    hide Subarray;
    if e.Answers? && e.id in s.pending {
      hide Range;
      var f := s.pending[e.id];
      assert Fits(size, f);
    }
  }

  lemma {:induction false} RunGenuine(file: Bytes, size: nat, hs: seq<Happening>)
    ensures Genuine(file, size, Run(file, size, hs))
  {
    hide Step, Honest, Genuine, EventOf;
    if hs == [] {
      UnreadGenuine(file, size);
    } else {
      var before := Run(file, size, hs[..|hs| - 1]);
      RunGenuine(file, size, hs[..|hs| - 1]);
      EventHonest(file, before, hs[|hs| - 1]);
      StepGenuine(file, before, size, EventOf(file, before, hs[|hs| - 1]));
    }
  }

  lemma UnreadGenuine(file: Bytes, size: nat)
    ensures Genuine(file, size, UNREAD)
  {
  }

  // ---- where the bytes of a read come from ----

  /** A stretch of the file between two places, empty when they are the wrong way round. */
  function Stretch(file: Bytes, from: nat, to: nat): Bytes {
    if from < to <= |file| then file[from..to] else []
  }

  /** The bytes of the file that this window has for a read between these places. */
  function Drawn(file: Bytes, s: Source, offset: nat, end: nat): Bytes
    requires s.window.Some?
  {
    var held := |s.window.value|;
    Stretch(file, s.base + Clamp(offset - s.start, held), s.base + Clamp(end - s.start, held))
  }

  lemma SubarrayOfRange(file: Bytes, base: nat, window: Bytes, begin: int, end: int)
    requires window == Range(file, base, base + |window|)
    ensures Subarray(window, begin, end)
            == Stretch(file, base + Clamp(begin, |window|), base + Clamp(end, |window|))
  {
    hide Clamp;
    var b, e := Clamp(begin, |window|), Clamp(end, |window|);
    ClampBound(begin, |window|);
    ClampBound(end, |window|);
    if b < e {
      assert window == file[base..base + |window|];
      SliceOfSlice(file, base, base + |window|, b, e);
    }
  }

  lemma ClampBound(i: int, n: nat)
    ensures Clamp(i, n) <= n
  {
  }

  lemma SliceOfSlice(s: Bytes, begin: nat, end: nat, i: nat, j: nat)
    requires begin <= end <= |s| && i <= j <= end - begin
    ensures s[begin..end][i..j] == s[begin + i..begin + j]
  {
    var inner := s[begin..end];
    var a, b := inner[i..j], s[begin + i..begin + j];
    assert |a| == |b|;
    forall k | 0 <= k < |a|
      ensures a[k] == b[k]
    {
      assert a[k] == inner[i + k] == s[begin + (i + k)];
    }
  }

  /**
    In every run, failed fetches and overlapping reads included: the bytes of a read that returns any are
    those that lie as far from the place the window was fetched from as the read lies from the place noted
    for it, where what lies before the window counts back from the window's end.
   */
  lemma ReadsFrom(file: Bytes, size: nat, hs: seq<Happening>, h: Happening)
    ensures var (s, o) := Then(file, size, hs, h);
            o.Returns? && o.offset < o.end ==>
              s.window.Some? && o.bytes == Drawn(file, s, o.offset, o.end)
  {
    hide Run, Subarray, Stretch, Range, Clamp;
    RunGenuine(file, size, hs);
    var before := Run(file, size, hs);
    var e := EventOf(file, before, h);
    EventHonest(file, before, h);
    StepGenuine(file, before, size, e);
    StepFrom(file, before, size, e);
  }

  lemma StepFrom(file: Bytes, s: Source, size: nat, e: Event)
    requires Genuine(file, size, Step(s, size, e).0)
    ensures var (s', o) := Step(s, size, e);
            o.Returns? && o.offset < o.end ==>
              s'.window.Some? && o.bytes == Drawn(file, s', o.offset, o.end)
  {
    hide Subarray, Stretch, Range, Clamp, Fits;
    var (s', o) := Step(s, size, e);
    if o.Returns? && o.offset < o.end {
      SubarrayOfRange(file, s'.base, s'.window.value, o.offset - s'.start, o.end - s'.start);
      if s'.window.value == [] {
        NothingHeld(file, s'.base, o.offset - s'.start, o.end - s'.start);
      }
    }
  }

  lemma NothingHeld(file: Bytes, base: nat, begin: int, end: int)
    ensures Stretch(file, base + Clamp(begin, 0), base + Clamp(end, 0)) == []
  {
  }

  // ---- when reads are right ----

  /** A read that returns gives the range it was asked for. */
  predicate Right(file: Bytes, o: Outcome) {
    o.Returns? ==> o.bytes == Range(file, o.offset, o.end)
  }

  ghost predicate AllRight(file: Bytes, size: nat, hs: seq<Happening>) {
    forall i :: 0 <= i < |hs| ==> Right(file, Then(file, size, hs[..i], hs[i]).1)
  }

  /** How many bytes a fetch brings from a file of n. */
  function Brought(n: nat, f: Fetch, more: nat): nat {
    if n <= f.offset then 0 else Min(f.length + more, n - f.offset)
  }

  /**
    Whether a fetch that arrives serves its own read, with `start` the place noted last: it does when that is
    its own place, or it brought nothing; and besides when the next window's place is noted, for then the
    index that comes out negative counts back to where the read is, but for a read that ends with its
    window; and when the place noted is past a file shorter than its owner said.
   */
  predicate Lands(n: nat, start: nat, f: Fetch, brought: nat) {
    || brought == 0 || start == f.offset
    || (f.end <= n && f.end < start == f.offset + brought)
    || (n < f.end && n <= start <= f.end - brought)
  }

  /** What may happen next: a read served from the window finds it in its place, a fetch lands. */
  predicate Placed(n: nat, size: nat, s: Source, h: Happening) {
    match h
    case Reads(id, offset, length) =>
      id in s.pending || End(size, offset, length) <= offset || Needs(s, size, offset, length) || s.start == s.base
    case Arrives(id, more) => id in s.pending ==> Lands(n, s.start, s.pending[id], Brought(n, s.pending[id], more))
    case Breaks(_) => true
  }

  ghost predicate Careful(file: Bytes, size: nat, hs: seq<Happening>) {
    forall i :: 0 <= i < |hs| ==> Placed(|file|, size, Run(file, size, hs[..i]), hs[i])
  }

  /** The stretch between these places is what a read from offset to end ought to return, in any file of n bytes. */
  predicate Fitting(n: nat, from: nat, to: nat, offset: nat, end: nat) {
    if from < to <= n then from == offset && to == Min(end, n) else n <= offset
  }

  /** A file of n bytes that differs at one place. */
  function Marked(n: nat, at: nat): (file: Bytes)
    ensures |file| == n
  {
    seq(n, i => if i == at then 1 else 0)
  }

  lemma FittingIsRight(file: Bytes, from: nat, to: nat, offset: nat, end: nat)
    requires offset < end && Fitting(|file|, from, to, offset, end)
    ensures Stretch(file, from, to) == Range(file, offset, end)
  {
  }

  lemma OtherIsWrong(n: nat, from: nat, to: nat, offset: nat, end: nat)
    requires offset < end && !Fitting(n, from, to, offset, end)
    ensures Stretch(Marked(n, offset), from, to) != Range(Marked(n, offset), offset, end)
  {
    var file := Marked(n, offset);
    var got, asked := Stretch(file, from, to), Range(file, offset, end);
    if offset < n && from < to <= n && |got| == |asked| {
      assert asked[0] == file[offset] == 1 && got[0] == file[from] == 0;
    }
  }

  /**
    The places a read served from the window would be read between are right exactly when the window
    is in its place.
   */
  lemma ServedFits(n: nat, base: nat, held: nat, start: nat, offset: nat, end: nat)
    requires start <= offset < end <= start + held && (base < n && base + held <= n)
    ensures Fitting(n, base + Clamp(offset - start, held), base + Clamp(end - start, held), offset, end)
            <==> start == base
  {
  }

  /** And those of a fetch's own read exactly when it lands. */
  lemma LandedFits(n: nat, size: nat, start: nat, f: Fetch, more: nat)
    requires Fits(size, f)
    ensures var held := Brought(n, f, more);
            Fitting(n, f.offset + Clamp(f.offset - start, held), f.offset + Clamp(f.end - start, held), f.offset, f.end)
            <==> Lands(n, start, f, held)
  {
  }

  lemma WindowBound(file: Bytes, base: nat, window: Bytes)
    requires window == Range(file, base, base + |window|) && window != []
    ensures base < |file| && base + |window| <= |file|
  {
  }

  /** One happening: whether it is placed decides whether the read it ends is right, in this file or in a marked one. */
  lemma PlacedDecides(file: Bytes, s: Source, size: nat, h: Happening)
    requires Genuine(file, size, s)
    ensures var o := Step(s, size, EventOf(file, s, h)).1;
            && (Placed(|file|, size, s, h) ==> Right(file, o))
            && (!Placed(|file|, size, s, h) ==>
                  o.Returns? && (file == Marked(|file|, o.offset) ==> !Right(file, o)))
  {
    hide Subarray, Stretch, Range, Clamp, Fitting, Lands, Marked;
    var e := EventOf(file, s, h);
    EventHonest(file, s, h);
    StepGenuine(file, s, size, e);
    StepFrom(file, s, size, e);
    match h
    case Reads(id, offset, length) => ReadDecides(file, s, size, id, offset, length);
    case Arrives(id, more) =>
      if id in s.pending {
        ArrivalDecides(file, s, size, id, more);
      }
    case Breaks(_) =>
  }

  lemma ReadDecides(file: Bytes, s: Source, size: nat, id: nat, offset: nat, length: nat)
    requires Genuine(file, size, s)
    ensures var (h, o) := (Reads(id, offset, length), Step(s, size, Asks(id, offset, length)).1);
            && (Placed(|file|, size, s, h) ==> Right(file, o))
            && (!Placed(|file|, size, s, h) ==>
                  o.Returns? && o.offset == offset && (file == Marked(|file|, offset) ==> !Right(file, o)))
  {
    hide Subarray, Stretch, Clamp, Fitting, Marked;
    var end := End(size, offset, length);
    if id !in s.pending && offset < end && !Needs(s, size, offset, length) {
      hide Range;
      StepFrom(file, s, size, Asks(id, offset, length));
      var held := |s.window.value|;
      WindowBound(file, s.base, s.window.value);
      ServedFits(|file|, s.base, held, s.start, offset, end);
      Decide(file, s.base + Clamp(offset - s.start, held), s.base + Clamp(end - s.start, held), offset, end);
    }
  }

  lemma ArrivalDecides(file: Bytes, s: Source, size: nat, id: nat, more: nat)
    requires Genuine(file, size, s) && id in s.pending
    ensures var h := Arrives(id, more);
            var o := Step(s, size, EventOf(file, s, h)).1;
            && (Placed(|file|, size, s, h) ==> Right(file, o))
            && (!Placed(|file|, size, s, h) ==> o.Returns? && (file == Marked(|file|, o.offset) ==> !Right(file, o)))
  {
    hide Subarray, Stretch, Clamp, Fitting, Marked, Lands;
    var f := s.pending[id];
    var e := EventOf(file, s, Arrives(id, more));
    EventHonest(file, s, Arrives(id, more));
    StepGenuine(file, s, size, e);
    StepFrom(file, s, size, e);
    var held := |e.bytes|;
    BroughtIs(file, f, more);
    hide Range;
    LandedFits(|file|, size, s.start, f, more);
    Decide(file, f.offset + Clamp(f.offset - s.start, held), f.offset + Clamp(f.end - s.start, held), f.offset, f.end);
  }

  lemma BroughtIs(file: Bytes, f: Fetch, more: nat)
    requires f.length > 0
    ensures |Range(file, f.offset, f.offset + f.length + more)| == Brought(|file|, f, more)
  {
  }

  lemma Decide(file: Bytes, from: nat, to: nat, offset: nat, end: nat)
    requires offset < end
    ensures Fitting(|file|, from, to, offset, end) ==> Stretch(file, from, to) == Range(file, offset, end)
    ensures !Fitting(|file|, from, to, offset, end) && file == Marked(|file|, offset) ==>
              Stretch(file, from, to) != Range(file, offset, end)
  {
    if Fitting(|file|, from, to, offset, end) {
      FittingIsRight(file, from, to, offset, end);
    } else {
      OtherIsWrong(|file|, from, to, offset, end);
    }
  }

  // ---- files of one length are read alike ----

  /** Everything about the source but the bytes it holds. */
  predicate Alike(s: Source, t: Source) {
    && s.start == t.start && s.base == t.base && s.pending == t.pending
    && (s.window.Some? <==> t.window.Some?)
    && (s.window.Some? ==> |s.window.value| == |t.window.value|)
  }

  lemma StepAlike(file: Bytes, other: Bytes, s: Source, t: Source, size: nat, h: Happening)
    requires |file| == |other| && Alike(s, t)
    ensures Alike(Step(s, size, EventOf(file, s, h)).0, Step(t, size, EventOf(other, t, h)).0)
    ensures Placed(|file|, size, s, h) == Placed(|other|, size, t, h)
    ensures var o, p := Step(s, size, EventOf(file, s, h)).1, Step(t, size, EventOf(other, t, h)).1;
            (o.Returns? <==> p.Returns?) && (o.Returns? ==> o.offset == p.offset && o.end == p.end)
  {
    hide Subarray, Lands;
  }

  lemma {:induction false} RunAlike(file: Bytes, other: Bytes, size: nat, hs: seq<Happening>)
    requires |file| == |other|
    ensures Alike(Run(file, size, hs), Run(other, size, hs))
  {
    hide Step, EventOf, Alike;
    if hs == [] {
      UnreadAlike();
    } else {
      var front := hs[..|hs| - 1];
      RunAlike(file, other, size, front);
      StepAlike(file, other, Run(file, size, front), Run(other, size, front), size, hs[|hs| - 1]);
    }
  }

  lemma UnreadAlike()
    ensures Alike(UNREAD, UNREAD)
  {
  }

  // ---- the exact condition ----

  /**
    When reads are right: over every run, whatever overlaps or fails in it, all reads answered in it return
    exactly what they were asked for, whatever the file holds, if and only if each read served from the window
    found the window in its place and each fetch landed.
   */
  lemma ReadsRightExactlyWhen(file: Bytes, size: nat, hs: seq<Happening>)
    ensures Careful(file, size, hs) <==> forall other: Bytes :: |other| == |file| ==> AllRight(other, size, hs)
  {
    hide Run, Step, EventOf, Placed, Right, Marked, Alike;
    if Careful(file, size, hs) {
      forall other: Bytes | |other| == |file|
        ensures AllRight(other, size, hs)
      {
        CarefulRight(file, other, size, hs);
      }
    } else {
      var i :| 0 <= i < |hs| && !Placed(|file|, size, Run(file, size, hs[..i]), hs[i]);
      Misread(file, size, hs[..i], hs[i]);
      assert !AllRight(Marked(|file|, Then(file, size, hs[..i], hs[i]).1.offset), size, hs);
    }
  }

  lemma CarefulRight(file: Bytes, other: Bytes, size: nat, hs: seq<Happening>)
    requires |file| == |other| && Careful(file, size, hs)
    ensures AllRight(other, size, hs)
  {
    hide Run, Step, EventOf, Placed, Right, Alike;
    forall i | 0 <= i < |hs|
      ensures Right(other, Then(other, size, hs[..i], hs[i]).1)
    {
      assert Placed(|file|, size, Run(file, size, hs[..i]), hs[i]);
      RunAlike(file, other, size, hs[..i]);
      StepAlike(file, other, Run(file, size, hs[..i]), Run(other, size, hs[..i]), size, hs[i]);
      RunGenuine(other, size, hs[..i]);
      PlacedDecides(other, Run(other, size, hs[..i]), size, hs[i]);
    }
  }

  /** What happens out of place is a read answered wrongly, in the file marked where it was asked. */
  lemma Misread(file: Bytes, size: nat, hs: seq<Happening>, h: Happening)
    requires !Placed(|file|, size, Run(file, size, hs), h)
    ensures var o := Then(file, size, hs, h).1;
            o.Returns? && !Right(Marked(|file|, o.offset), Then(Marked(|file|, o.offset), size, hs, h).1)
  {
    hide Run, Step, EventOf, Placed, Right, Marked, Alike;
    var s := Run(file, size, hs);
    RunGenuine(file, size, hs);
    PlacedDecides(file, s, size, h);
    var other := Marked(|file|, Then(file, size, hs, h).1.offset);
    RunAlike(file, other, size, hs);
    StepAlike(file, other, s, Run(other, size, hs), size, h);
    RunGenuine(other, size, hs);
    PlacedDecides(other, Run(other, size, hs), size, h);
  }

  /** The window is where the source takes it to be, or there are no bytes in it to misread. */
  predicate InPlace(s: Source) {
    s.window.Some? && s.window.value != [] ==> s.start == s.base
  }

  ghost predicate NextRight(n: nat, size: nat, hs: seq<Happening>) {
    forall other: Bytes, id: nat, offset: nat, length: nat ::
      |other| == n && id !in Run(other, size, hs).pending ==>
        Right(other, Then(other, size, hs, Reads(id, offset, length)).1)
  }

  /**
    What the next read can count on: after every run, any read that is answered at once is answered rightly,
    whatever the file holds, if and only if the window is in its place or empty.
   */
  lemma NextReadRightExactlyWhen(file: Bytes, size: nat, hs: seq<Happening>)
    ensures InPlace(Run(file, size, hs)) <==> NextRight(|file|, size, hs)
  {
    hide Run, Step, EventOf, Right, Marked, Alike, Placed;
    var s := Run(file, size, hs);
    RunGenuine(file, size, hs);
    if InPlace(s) {
      forall other: Bytes, id: nat, offset: nat, length: nat | |other| == |file| && id !in Run(other, size, hs).pending
        ensures Right(other, Then(other, size, hs, Reads(id, offset, length)).1)
      {
        RunAlike(file, other, size, hs);
        RunGenuine(other, size, hs);
        var t := Run(other, size, hs);
        AlikeInPlace(s, t);
        InPlacePlaced(|file|, size, t, id, offset, length);
        PlacedDecides(other, t, size, Reads(id, offset, length));
      }
    } else {
      var id := FreshId(s.pending.Keys);
      OutOfPlaceMisplaced(file, size, s, id);
      Misread(file, size, hs, Reads(id, s.start, 1));
      var o := Then(file, size, hs, Reads(id, s.start, 1)).1;
      var other := Marked(|file|, o.offset);
      RunAlike(file, other, size, hs);
      AlikePending(s, Run(other, size, hs));
    }
  }

  lemma AlikePending(s: Source, t: Source)
    requires Alike(s, t)
    ensures s.pending == t.pending
  {
  }

  lemma AlikeInPlace(s: Source, t: Source)
    requires Alike(s, t)
    ensures InPlace(s) == InPlace(t)
  {
  }

  lemma InPlacePlaced(n: nat, size: nat, s: Source, id: nat, offset: nat, length: nat)
    requires InPlace(s)
    ensures Placed(n, size, s, Reads(id, offset, length))
  {
  }

  /** A read of one byte at the place noted is served from a window that is elsewhere. */
  lemma OutOfPlaceMisplaced(file: Bytes, size: nat, s: Source, id: nat)
    requires Genuine(file, size, s) && !InPlace(s) && id !in s.pending
    ensures !Placed(|file|, size, s, Reads(id, s.start, 1))
  {
  }

  lemma FreshId(ids: set<nat>) returns (id: nat)
    ensures id !in ids
  {
    id := 0;
    var rest := ids;
    while id in ids
      invariant forall k :: 0 <= k < id ==> k in ids && k !in rest
      invariant forall k :: k in ids && k >= id ==> k in rest
      decreases |rest|
    {
      rest := rest - {id};
      id := id + 1;
    }
  }

  // ---- the condition as a caller sees it ----

  /** The places the source has asked its file for, in order: what fetchWindow was called with. */
  function Asked(file: Bytes, size: nat, hs: seq<Happening>): seq<nat> {
    if hs == [] then []
    else
      var front, h := hs[..|hs| - 1], hs[|hs| - 1];
      Asked(file, size, front) +
        if h.Reads? && h.id !in Run(file, size, front).pending && Then(file, size, front, h).1.Waits?
        then [h.offset] else []
  }

  /** The places whose fetches have been answered, in the order the answers came. */
  function Answered(file: Bytes, size: nat, hs: seq<Happening>): seq<nat> {
    if hs == [] then []
    else
      var front, h := hs[..|hs| - 1], hs[|hs| - 1];
      var pending := Run(file, size, front).pending;
      Answered(file, size, front) + if h.Arrives? && h.id in pending then [pending[h.id].offset] else []
  }

  /** The place noted is the one asked for last, the window's own the one answered last. */
  lemma {:induction false} NotedPlaces(file: Bytes, size: nat, hs: seq<Happening>)
    ensures var s, asked, answered := Run(file, size, hs), Asked(file, size, hs), Answered(file, size, hs);
            && (asked != [] ==> s.start == asked[|asked| - 1])
            && (s.window.Some? <==> answered != []) && (answered != [] ==> s.base == answered[|answered| - 1])
            && (asked == [] ==> answered == [] && s.pending == map[])
  {
    hide Subarray, Range;
    if hs != [] {
      NotedPlaces(file, size, hs[..|hs| - 1]);
    }
  }

  /**
    So a caller can tell: the next read is safe exactly when the fetch asked for last and the one answered last
    were for one place, none was answered yet, or the last answer was empty.
   */
  lemma SafeToReadExactlyWhen(file: Bytes, size: nat, hs: seq<Happening>)
    ensures var s, asked, answered := Run(file, size, hs), Asked(file, size, hs), Answered(file, size, hs);
            NextRight(|file|, size, hs) <==>
              answered == [] || s.window == Some([])
              || (asked != [] && asked[|asked| - 1] == answered[|answered| - 1])
  {
    hide Run, Asked, Answered, NextRight;
    NotedPlaces(file, size, hs);
    NextReadRightExactlyWhen(file, size, hs);
  }

  // ---- one read at a time ----

  /** Each read is over before the next begins, and none fails but at the place of the window that is held. */
  ghost predicate OneAtATime(file: Bytes, size: nat, hs: seq<Happening>) {
    forall i :: 0 <= i < |hs| ==>
      var s := Run(file, size, hs[..i]);
      match hs[i]
      case Reads(_, _, _) => s.pending == map[]
      case Arrives(_, _) => true
      case Breaks(id) => id in s.pending ==> Aligned(s)
  }

  /** The window is where the source takes it to be. */
  predicate Aligned(s: Source) {
    s.window.Some? ==> s.start == s.base
  }

  /** At most one fetch is under way, at the place noted; and with none the window is in its place. */
  predicate Steady(s: Source) {
    && (forall i, j :: i in s.pending && j in s.pending ==> i == j)
    && (forall id :: id in s.pending ==> s.pending[id].offset == s.start)
    && (s.pending == map[] ==> Aligned(s))
  }

  lemma OnlyOne(pending: map<nat, Fetch>, id: nat)
    requires id in pending && forall i, j :: i in pending && j in pending ==> i == j
    ensures pending - {id} == map[]
  {
  }

  lemma StepSteady(s: Source, size: nat, e: Event)
    requires Steady(s) && (e.Asks? ==> s.pending == map[]) && (e.Fails? && e.id in s.pending ==> Aligned(s))
    ensures Steady(Step(s, size, e).0)
  {
    hide Subarray;
    if !e.Asks? && e.id in s.pending {
      OnlyOne(s.pending, e.id);
    }
  }

  lemma SteadyPlaced(n: nat, size: nat, s: Source, h: Happening)
    requires Steady(s) && (h.Reads? ==> s.pending == map[])
    ensures Placed(n, size, s, h)
  {
  }

  lemma UnreadSteady()
    ensures Steady(UNREAD)
  {
  }

  lemma {:induction false} OneAtATimeSteady(file: Bytes, size: nat, hs: seq<Happening>)
    requires OneAtATime(file, size, hs)
    ensures Steady(Run(file, size, hs)) && Careful(file, size, hs)
  {
    hide Step, Steady, Placed, Aligned;
    if hs == [] {
      UnreadSteady();
    } else {
      var front, h := hs[..|hs| - 1], hs[|hs| - 1];
      assert forall i :: 0 <= i < |front| ==> front[..i] == hs[..i];
      OneAtATimeSteady(file, size, front);
      var s := Run(file, size, front);
      StepSteady(s, size, EventOf(file, s, h));
      SteadyPlaced(|file|, size, s, h);
    }
  }

  /** Reading one at a time, every read returns exactly what it was asked for, however the reads jump about. */
  lemma QuietReadsExact(file: Bytes, size: nat, hs: seq<Happening>)
    requires OneAtATime(file, size, hs)
    ensures AllRight(file, size, hs)
  {
    hide Run, Careful, AllRight, OneAtATime;
    OneAtATimeSteady(file, size, hs);
    ReadsRightExactlyWhen(file, size, hs);
  }

  // ---- three ways to be misread ----

  /**
    A fetch that fails moves the window's place without its bytes: after the second window was read and a
    read of the front has failed, the next read of the front gets the second window's bytes.
   */
  lemma FailedFetchMisreads(file: Bytes, first: nat, second: nat, third: nat, chunk: nat)
    requires |file| == 2 * SOURCE_WINDOW && 0 < chunk <= SOURCE_WINDOW
    ensures var size := |file|;
            var s1 := Step(UNREAD, size, Asks(first, SOURCE_WINDOW, chunk)).0;
            var s2 := Step(s1, size, Answers(first, Range(file, SOURCE_WINDOW, size))).0;
            var s3 := Step(s2, size, Asks(second, 0, chunk)).0;
            var (s4, failed) := Step(s3, size, Fails(second));
            && failed == Throws
            && Step(s4, size, Asks(third, 0, chunk)).1
               == Returns(0, chunk, Range(file, SOURCE_WINDOW, SOURCE_WINDOW + chunk))
  {
    hide Range, Subarray;
    WindowLength(file);
    var size := |file|;
    var w := Range(file, SOURCE_WINDOW, size);
    var f := Fetch(SOURCE_WINDOW, SOURCE_WINDOW + chunk, SOURCE_WINDOW);
    var asked := Source(None, SOURCE_WINDOW, 0, map[first := f]);
    assert Step(UNREAD, size, Asks(first, SOURCE_WINDOW, chunk)).0 == asked;
    var s2 := Step(asked, size, Answers(first, w)).0;
    assert s2 == Source(Some(w), SOURCE_WINDOW, SOURCE_WINDOW, map[]);
    var s3 := Step(s2, size, Asks(second, 0, chunk)).0;
    assert s3 == Source(Some(w), 0, SOURCE_WINDOW, map[second := Fetch(0, chunk, SOURCE_WINDOW)]);
    var s4 := Step(s3, size, Fails(second)).0;
    assert s4 == Source(Some(w), 0, SOURCE_WINDOW, map[]);
    SecondWindow(file, 0, chunk);
  }

  /**
    And none need fail, nor two fetches overlap: while the front is being fetched again, another read of it is
    served from the second window, which is still held.
   */
  lemma HeldWindowMisreads(file: Bytes, first: nat, second: nat, third: nat, chunk: nat)
    requires |file| == 2 * SOURCE_WINDOW && 0 < chunk <= SOURCE_WINDOW && second != third
    ensures var size := |file|;
            var s1 := Step(UNREAD, size, Asks(first, SOURCE_WINDOW, chunk)).0;
            var s2 := Step(s1, size, Answers(first, Range(file, SOURCE_WINDOW, size))).0;
            var (s3, waits) := Step(s2, size, Asks(second, 0, chunk));
            && waits == Waits
            && Step(s3, size, Asks(third, 0, chunk)).1
               == Returns(0, chunk, Range(file, SOURCE_WINDOW, SOURCE_WINDOW + chunk))
  {
    hide Range, Subarray;
    WindowLength(file);
    var size := |file|;
    var w := Range(file, SOURCE_WINDOW, size);
    var f := Fetch(SOURCE_WINDOW, SOURCE_WINDOW + chunk, SOURCE_WINDOW);
    var asked := Source(None, SOURCE_WINDOW, 0, map[first := f]);
    assert Step(UNREAD, size, Asks(first, SOURCE_WINDOW, chunk)).0 == asked;
    var s2 := Step(asked, size, Answers(first, w)).0;
    assert s2 == Source(Some(w), SOURCE_WINDOW, SOURCE_WINDOW, map[]);
    var s3 := Step(s2, size, Asks(second, 0, chunk)).0;
    assert s3 == Source(Some(w), 0, SOURCE_WINDOW, map[second := Fetch(0, chunk, SOURCE_WINDOW)]);
    SecondWindow(file, 0, chunk);
  }

  lemma WindowLength(file: Bytes)
    requires |file| == 2 * SOURCE_WINDOW
    ensures |Range(file, SOURCE_WINDOW, 2 * SOURCE_WINDOW)| == SOURCE_WINDOW == |Range(file, 0, SOURCE_WINDOW)|
  {
  }

  /** Two reads whose fetches overlap and are answered in the other order leave a window in the wrong place as well. */
  lemma OverlapMisreads(file: Bytes, first: nat, second: nat, third: nat, chunk: nat)
    requires |file| == 2 * SOURCE_WINDOW && 0 < chunk && 2 * chunk <= SOURCE_WINDOW && first != second
    ensures var size := |file|;
            var s1 := Step(UNREAD, size, Asks(first, SOURCE_WINDOW, chunk)).0;
            var s2 := Step(s1, size, Asks(second, 0, chunk)).0;
            var s3 := Step(s2, size, Answers(second, Range(file, 0, SOURCE_WINDOW))).0;
            var s4 := Step(s3, size, Answers(first, Range(file, SOURCE_WINDOW, size))).0;
            Step(s4, size, Asks(third, chunk, chunk)).1
            == Returns(chunk, 2 * chunk, Range(file, SOURCE_WINDOW + chunk, SOURCE_WINDOW + 2 * chunk))
  {
    hide Range, Subarray;
    WindowLength(file);
    var size := |file|;
    var w := Range(file, SOURCE_WINDOW, size);
    var f1, f2 := Fetch(SOURCE_WINDOW, SOURCE_WINDOW + chunk, SOURCE_WINDOW), Fetch(0, chunk, SOURCE_WINDOW);
    var s2 := Source(None, 0, 0, map[first := f1, second := f2]);
    assert Step(UNREAD, size, Asks(first, SOURCE_WINDOW, chunk)).0 == Source(None, SOURCE_WINDOW, 0, map[first := f1]);
    assert Step(Source(None, SOURCE_WINDOW, 0, map[first := f1]), size, Asks(second, 0, chunk)).0 == s2;
    var s3 := Step(s2, size, Answers(second, Range(file, 0, SOURCE_WINDOW))).0;
    assert s3.pending == map[first := f1] && s3.start == 0;
    var s4 := Step(s3, size, Answers(first, w)).0;
    assert s4.window == Some(w) && s4.start == 0 && s4.base == SOURCE_WINDOW && third !in s4.pending;
    SecondWindow(file, chunk, 2 * chunk);
  }

  /** What a read gets from the second window at these indices. */
  lemma SecondWindow(file: Bytes, begin: nat, end: nat)
    requires |file| == 2 * SOURCE_WINDOW && begin < end <= SOURCE_WINDOW
    ensures Subarray(Range(file, SOURCE_WINDOW, |file|), begin, end)
            == Range(file, SOURCE_WINDOW + begin, SOURCE_WINDOW + end)
  {
    SliceOfSlice(file, SOURCE_WINDOW, |file|, begin, end);
  }

  // ---- the source's own object ----

  /** `size` is what the file's owner said it is, which may be wrong. `fetchedBytes` adds up what fetches asked for. */
  class WindowedSource {
    const size: nat
    var window: Option<Bytes>
    var windowStart: nat
    ghost var base: nat
    var pending: map<nat, Fetch>
    var fetchedBytes: nat

    ghost function View(): Source
      reads this
    {
      Source(window, windowStart, base, pending)
    }

    constructor (size: nat)
      ensures this.size == size && View() == UNREAD && fetchedBytes == 0
    {
      this.size := size;
      window, windowStart, base, pending, fetchedBytes := None, 0, 0, map[], 0;
    }

    /** A read up to its fetch, or to its end when it needs none. */
    method Begin(id: nat, offset: nat, length: nat) returns (outcome: Outcome)
      requires id !in pending
      modifies this
      ensures (View(), outcome) == Step(old(View()), size, Asks(id, offset, length))
      ensures fetchedBytes == old(fetchedBytes) + if outcome.Waits? then FetchLength(size, offset, length) else 0
    {
      hide Subarray;
      var end := Min(offset + length, size);
      if end <= offset { return Returns(offset, end, []); }
      if window.None? || offset < windowStart || end > windowStart + |window.value| {
        windowStart := offset;
        pending := pending[id := Fetch(offset, end, FetchLength(size, offset, length))];
        fetchedBytes := fetchedBytes + FetchLength(size, offset, length);
        return Waits;
      }
      return Returns(offset, end, Subarray(window.value, offset - windowStart, end - windowStart));
    }

    /** The rest of a read, once its fetch is answered or has failed. */
    method Resume(id: nat, answer: Option<Bytes>) returns (outcome: Outcome)
      requires id in pending
      modifies this`window, this`base, this`pending
      ensures (View(), outcome)
              == Step(old(View()), size, if answer.Some? then Answers(id, answer.value) else Fails(id))
    {
      hide Subarray;
      var f := pending[id];
      pending := pending - {id};
      if answer.None? { return Throws; }
      window, base := answer, f.offset;
      if |window.value| == 0 { return Returns(f.offset, f.end, []); }
      return Returns(f.offset, f.end, Subarray(window.value, f.offset - windowStart, f.end - windowStart));
    }

    /** A whole read with no other in between; None is a read that throws. */
    method ReadChunk(file: Bytes, offset: nat, length: nat, answer: Option<Bytes>) returns (bytes: Option<Bytes>)
      requires Aligned(View()) && Genuine(file, size, View()) && pending == map[]
      requires Needs(View(), size, offset, length) && answer.Some? ==>
                 Fetched(file, offset, FetchLength(size, offset, length), answer.value)
      modifies this
      ensures Genuine(file, size, View()) && pending == map[]
      ensures bytes == if old(Needs(View(), size, offset, length)) && answer.None? then None
                       else Some(Range(file, offset, End(size, offset, length)))
      ensures if old(Needs(View(), size, offset, length)) then
                && windowStart == offset && window == (if answer.Some? then answer else old(window))
                && fetchedBytes == old(fetchedBytes) + FetchLength(size, offset, length)
              else View() == old(View()) && fetchedBytes == old(fetchedBytes)
      ensures bytes.Some? ==> Aligned(View())
    {
      hide Subarray, Range, Fetched, Lands;
      ghost var s0, ask := View(), Asks(0, offset, length);
      StepGenuine(file, s0, size, ask);
      ReadDecides(file, s0, size, 0, offset, length);
      var outcome := Begin(0, offset, length);
      if outcome.Waits? {
        ghost var s1, e := View(), if answer.Some? then Answers(0, answer.value) else Fails(0);
        ghost var f := Fetch(offset, End(size, offset, length), FetchLength(size, offset, length));
        assert s1.pending == map[0 := f];
        OnlyOne(s1.pending, 0);
        StepGenuine(file, s1, size, e);
        if answer.Some? {
          AnyHonestAnswer(file, s1, 0, answer.value);
          ghost var more: nat :| EventOf(file, s1, Arrives(0, more)) == Answers(0, answer.value);
          OwnPlaceLands(|file|, f, more);
          ArrivalDecides(file, s1, size, 0, more);
        }
        outcome := Resume(0, answer);
      }
      bytes := if outcome.Returns? then Some(outcome.bytes) else None;
    }
  }

  lemma OwnPlaceLands(n: nat, f: Fetch, more: nat)
    ensures Lands(n, f.offset, f, Brought(n, f, more))
  {
  }

  /**
    A pass from front to back in chunks that divide the window returns the whole file and fetches
    every byte of it exactly once.
   */
  method SequentialPass(file: Bytes, chunk: nat) returns (content: Bytes, fetched: nat)
    requires 0 < chunk <= SOURCE_WINDOW && SOURCE_WINDOW % chunk == 0
    ensures content == file && fetched == |file|
  {
    hide Subarray, Times, Multiple, Range, Fetched, Genuine;
    var source := new WindowedSource(|file|);
    UnreadGenuine(file, |file|);
    var offset := 0;
    content := [];
    WindowIsMultiple(chunk);
    MultipleZero(chunk);
    while offset < |file|
      invariant fresh(source) && source.size == |file|
      invariant Aligned(source.View()) && Genuine(file, |file|, source.View()) && source.pending == map[]
      invariant content == file[..Min(offset, |file|)]
      invariant Multiple(offset, chunk)
      invariant source.window.None? ==> offset == 0 && source.fetchedBytes == 0
      invariant source.window.Some? ==>
                  && Multiple(source.windowStart, chunk) && source.windowStart <= offset
                  && source.fetchedBytes == source.windowStart + |source.window.value|
                  && source.fetchedBytes == Min(source.windowStart + SOURCE_WINDOW, |file|)
                  && Min(offset, |file|) <= source.fetchedBytes
      decreases |file| - offset
    {
      if source.window.Some? {
        MultipleSum(source.windowStart, SOURCE_WINDOW, chunk);
        MultipleGap(offset, source.windowStart + SOURCE_WINDOW, chunk);
      }
      MultipleNext(offset, chunk);
      var answer := Range(file, offset, offset + FetchLength(|file|, offset, chunk));
      HonestAnswer(file, offset, FetchLength(|file|, offset, chunk));
      RangeAppends(file, offset, chunk);
      var bytes := source.ReadChunk(file, offset, chunk, Some(answer));
      content := content + bytes.value;
      offset := offset + chunk;
    }
    fetched := source.fetchedBytes;
  }

  lemma HonestAnswer(file: Bytes, offset: nat, asked: nat)
    requires offset + asked <= |file|
    ensures var answer := Range(file, offset, offset + asked);
            Fetched(file, offset, asked, answer) && |answer| == asked
  {
  }

  lemma RangeAppends(file: Bytes, offset: nat, chunk: nat)
    requires offset < |file| && chunk > 0
    ensures file[..offset] + Range(file, offset, Min(offset + chunk, |file|)) == file[..Min(offset + chunk, |file|)]
  {
  }

  // ---- multiples of the chunk size: no chunk of a pass straddles the end of a window ----

  ghost predicate Multiple(n: nat, chunk: nat) {
    exists k: nat :: n == Times(k, chunk)
  }

  function Times(k: nat, chunk: nat): nat {
    k * chunk
  }

  lemma WindowIsMultiple(chunk: nat)
    requires 0 < chunk && SOURCE_WINDOW % chunk == 0
    ensures Multiple(SOURCE_WINDOW, chunk)
  {
    assert SOURCE_WINDOW == Times(SOURCE_WINDOW / chunk, chunk);
  }

  lemma MultipleZero(chunk: nat)
    ensures Multiple(0, chunk)
  {
    assert 0 == Times(0, chunk);
  }

  lemma MultipleNext(n: nat, chunk: nat)
    requires Multiple(n, chunk)
    ensures Multiple(n + chunk, chunk)
  {
    var k: nat :| n == Times(k, chunk);
    assert n + chunk == Times(k + 1, chunk);
  }

  lemma MultipleSum(m: nat, n: nat, chunk: nat)
    requires Multiple(m, chunk) && Multiple(n, chunk)
    ensures Multiple(m + n, chunk)
  {
    var j: nat :| m == Times(j, chunk);
    var k: nat :| n == Times(k, chunk);
    assert m + n == Times(j + k, chunk);
  }

  lemma MultipleGap(m: nat, n: nat, chunk: nat)
    requires Multiple(m, chunk) && Multiple(n, chunk)
    ensures m < n ==> m + chunk <= n
  {
    var j: nat :| m == Times(j, chunk);
    var k: nat :| n == Times(k, chunk);
    if j < k {
      MultiplyMonotone(j + 1, k, chunk);
    } else {
      MultiplyMonotone(k, j, chunk);
    }
  }
}
