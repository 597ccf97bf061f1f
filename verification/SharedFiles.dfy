/**
  A file another app shared, read at random places through a stream that only goes forward. The reader
  keeps the position it takes the stream to be at; a read that fails after bytes have come leaves it behind.
 */
module SharedFiles {
  import opened Common
  import S = Sources

  // ---- the reader as a machine ----

  /** `at` bytes of the file have gone past in the stream and cannot be read again. */
  datatype Stream = Stream(at: nat, closed: bool)

  /** `held` is whether a reader is kept at all; one whose file opened to nothing has no stream. */
  datatype Reader = Reader(held: bool, stream: Option<Stream>, position: nat)

  const UNOPENED := Reader(false, None, 0)

  /** What asking the system to open the file comes to. */
  datatype Opening = Opens | Missing | Refused

  /** How the stream behaves during one read: it may break while bytes are skipped, or after some have come. */
  datatype Trouble = Smooth | SkipBreaks(passed: nat) | FillBreaks(taken: nat)

  datatype Call = Call(isPending: bool, offset: nat, length: int, opening: Opening, trouble: Trouble)

  predicate Reopens(r: Reader, offset: nat) {
    !r.held || r.position > offset
  }

  /** A reader that has not passed the offset; a file that opens to no stream is kept as that. */
  function Opened(r: Reader, offset: nat, opening: Opening): Reader {
    if !Reopens(r, offset) then r
    else
      match opening
      case Opens => Reader(true, Some(Stream(0, false)), 0)
      case Missing => Reader(true, None, 0)
      case Refused => r.(stream := if r.stream.None? then None else Some(r.stream.value.(closed := true)))
  }

  predicate CanRead(r: Reader, offset: nat, opening: Opening) {
    Opened(r, offset, opening).stream.Some? && !(Reopens(r, offset) && opening.Refused?)
  }

  /** Where the stream is once everything before the offset is skipped, as far as the file goes. */
  function SkippedTo(n: nat, r: Reader, offset: nat): nat
    requires r.stream.Some?
  {
    var at := r.stream.value.at;
    if r.position >= offset then at else Max(at, Min(at + (offset - r.position), n))
  }

  /** Both the stream and the position kept for it go forward. */
  function Forward(r: Reader, n: nat): Reader
    requires r.stream.Some?
  {
    Lose(r, n).(position := r.position + n)
  }

  /** Only the stream does. */
  function Lose(r: Reader, n: nat): Reader
    requires r.stream.Some?
  {
    r.(stream := Some(r.stream.value.(at := r.stream.value.at + n)))
  }

  /** How many bytes a stream at this place of a file of n has left, of those wanted. */
  function Left(n: nat, at: nat, wanted: nat): nat {
    Min(wanted, Max(n - at, 0))
  }

  /** A read on an open stream. */
  function Through(file: Bytes, r: Reader, c: Call): (Reader, Option<Bytes>)
    requires r.stream.Some? && c.length > 0
  {
    var skip := SkippedTo(|file|, r, c.offset) - r.stream.value.at;
    var there := Forward(r, skip);
    var at := there.stream.value.at;
    match c.trouble
    case Smooth => (Forward(there, Left(|file|, at, c.length)), Some(S.Range(file, at, at + c.length)))
    case SkipBreaks(passed) => (Forward(r, Min(passed, skip)), None)
    case FillBreaks(taken) => (Lose(there, Left(|file|, at, Min(taken, c.length - 1))), None)
  }

  /** The reader a call has to do with, before anything is skipped or read. */
  function Prepared(r: Reader, c: Call): Reader {
    if c.isPending && c.length > 0 then Opened(r, c.offset, c.opening) else r
  }

  function Step(file: Bytes, r: Reader, c: Call): (Reader, Option<Bytes>) {
    var ready := Prepared(r, c);
    if !c.isPending || c.length <= 0 || !CanRead(r, c.offset, c.opening) || ready.stream.value.closed then (ready, None)
    else Through(file, ready, c)
  }

  function Run(file: Bytes, calls: seq<Call>): Reader {
    if calls == [] then UNOPENED else Step(file, Run(file, calls[..|calls| - 1]), calls[|calls| - 1]).0
  }

  /** How far the stream is ahead of the position kept for it. */
  function Lag(r: Reader): nat {
    if r.stream.None? then 0 else Max(r.stream.value.at - r.position, 0)
  }

  predicate Sensible(n: nat, r: Reader) {
    && (r.stream.Some? ==> r.held && r.position <= r.stream.value.at <= n)
    && (r.held && r.stream.None? ==> r.position == 0)
  }

  lemma StepSensible(file: Bytes, r: Reader, c: Call)
    requires Sensible(|file|, r)
    ensures Sensible(|file|, Step(file, r, c).0)
  {
    hide S.Range, Opened, Through;
    OpenedSensible(|file|, r, c.offset, c.opening);
    if c.length > 0 && Prepared(r, c).stream.Some? {
      ThroughSensible(file, Prepared(r, c), c);
    }
  }

  lemma OpenedSensible(n: nat, r: Reader, offset: nat, opening: Opening)
    requires Sensible(n, r)
    ensures Sensible(n, Opened(r, offset, opening))
  {
  }

  lemma ThroughSensible(file: Bytes, r: Reader, c: Call)
    requires Sensible(|file|, r) && r.stream.Some? && c.length > 0
    ensures Sensible(|file|, Through(file, r, c).0)
  {
    hide S.Range;
  }

  lemma {:induction false} RunSensible(file: Bytes, calls: seq<Call>)
    ensures Sensible(|file|, Run(file, calls))
  {
    hide Step;
    if calls != [] {
      RunSensible(file, calls[..|calls| - 1]);
      StepSensible(file, Run(file, calls[..|calls| - 1]), calls[|calls| - 1]);
    }
  }

  // ---- what a read returns, and what it leaves ----

  /** An answered read returns the file's range as far behind the offset as the stream was ahead, and stays. */
  lemma AnswersShifted(file: Bytes, r: Reader, c: Call)
    requires Sensible(|file|, r)
    ensures var (r', answer) := Step(file, r, c);
            answer.Some? ==>
              var lag := Lag(Prepared(r, c));
              && Lag(r') == lag && c.length > 0
              && answer.value == S.Range(file, c.offset + lag, c.offset + lag + c.length)
  {
  }

  /** The lag a read leaves: none behind a new stream, and more by the bytes that had come when the stream broke. */
  lemma LagAfter(file: Bytes, r: Reader, c: Call)
    requires Sensible(|file|, r)
    ensures Lag(Prepared(r, c)) == if PutsStream(r, c) then 0 else if PutsNone(r, c) then 0 else Lag(r)
    ensures Lag(Step(file, r, c).0) == Lag(Prepared(r, c)) + BytesLost(file, r, c)
  {
    hide S.Range;
  }

  /** The call puts a new stream in place. */
  predicate PutsStream(r: Reader, c: Call) {
    c.isPending && c.length > 0 && Reopens(r, c.offset) && c.opening.Opens?
  }

  /** The file opens to no stream, which ends every read of it. */
  predicate PutsNone(r: Reader, c: Call) {
    c.isPending && c.length > 0 && Reopens(r, c.offset) && c.opening.Missing?
  }

  /** The bytes that had come out of the stream when it broke, and were thrown away. */
  function BytesLost(file: Bytes, r: Reader, c: Call): nat {
    var ready := Prepared(r, c);
    if !c.isPending || c.length <= 0 || !CanRead(r, c.offset, c.opening) || ready.stream.value.closed then 0
    else
      match c.trouble
      case FillBreaks(taken) =>
        Left(|file|, SkippedTo(|file|, ready, c.offset), Min(taken, c.length - 1))
      case _ => 0
  }

  // ---- exactly when reads are right ----

  predicate Fails(file: Bytes, calls: seq<Call>, i: nat)
    requires i < |calls|
  {
    BytesLost(file, Run(file, calls[..i]), calls[i]) > 0
  }

  predicate Reopened(file: Bytes, calls: seq<Call>, i: nat)
    requires i < |calls|
  {
    PutsStream(Run(file, calls[..i]), calls[i])
  }

  /** Some read failed after bytes had come, and no stream was opened since. */
  ghost predicate Behind(file: Bytes, calls: seq<Call>) {
    exists i :: 0 <= i < |calls| && Fails(file, calls, i) && NotReopened(file, calls, i + 1)
  }

  ghost predicate NotReopened(file: Bytes, calls: seq<Call>, from: nat) {
    forall j :: from <= j < |calls| ==> !Reopened(file, calls, j)
  }

  /** One more call: behind by its own failure, or still behind. */
  lemma BehindMore(file: Bytes, calls: seq<Call>, c: Call)
    ensures var r := Run(file, calls);
            Behind(file, calls + [c]) <==> BytesLost(file, r, c) > 0 || (!PutsStream(r, c) && Behind(file, calls))
  {
    hide Run, BytesLost, PutsStream;
    var all, n := calls + [c], |calls|;
    assert all[..n] == calls;
    assert forall i :: 0 <= i < n ==> all[..i] == calls[..i];
    assert forall i :: 0 <= i < n ==> (Fails(file, all, i) <==> Fails(file, calls, i));
    assert forall i :: 0 <= i < n ==> (Reopened(file, all, i) <==> Reopened(file, calls, i));
    if BytesLost(file, Run(file, calls), c) > 0 {
      assert Fails(file, all, n) && NotReopened(file, all, n + 1);
    }
    if !PutsStream(Run(file, calls), c) && Behind(file, calls) {
      var i :| 0 <= i < n && Fails(file, calls, i) && NotReopened(file, calls, i + 1);
      assert Fails(file, all, i) && NotReopened(file, all, i + 1);
    }
    if Behind(file, all) {
      var i :| 0 <= i <= n && Fails(file, all, i) && NotReopened(file, all, i + 1);
      if i < n {
        assert !Reopened(file, all, n);
        assert Fails(file, calls, i) && NotReopened(file, calls, i + 1);
      }
    }
  }

  /** The stream is ahead of the position kept for it exactly when bytes were lost since it was opened. */
  lemma {:induction false} BehindIsLag(file: Bytes, calls: seq<Call>)
    ensures Run(file, calls).stream.Some? ==> (Lag(Run(file, calls)) > 0 <==> Behind(file, calls))
  {
    hide Step, Lag, Behind, PutsStream, PutsNone, BytesLost;
    if calls == [] {
      assert UNOPENED.stream.None?;
    } else {
      var front, c := calls[..|calls| - 1], calls[|calls| - 1];
      var r := Run(file, front);
      assert calls == front + [c];
      BehindIsLag(file, front);
      RunSensible(file, front);
      BehindMore(file, front, c);
      LagAfter(file, r, c);
      StreamComes(file, r, c);
    }
  }

  lemma StreamComes(file: Bytes, r: Reader, c: Call)
    ensures Step(file, r, c).0.stream.Some? ==> PutsStream(r, c) || (r.stream.Some? && !PutsNone(r, c))
  {
    hide S.Range;
  }

  /** Nothing a reader keeps depends on what the file holds, only on its length. */
  lemma {:induction false} RunAlike(file: Bytes, other: Bytes, calls: seq<Call>)
    requires |file| == |other|
    ensures Run(file, calls) == Run(other, calls)
  {
    hide S.Range;
    if calls != [] {
      RunAlike(file, other, calls[..|calls| - 1]);
    }
  }

  /** The answer to a call made after these, if it is answered, is the range asked for. */
  predicate Right(file: Bytes, calls: seq<Call>, c: Call) {
    var answer := Step(file, Run(file, calls), c).1;
    answer.Some? && c.length > 0 ==> answer.value == S.Range(file, c.offset, c.offset + c.length)
  }

  predicate IsAnswered(file: Bytes, calls: seq<Call>, c: Call) {
    Step(file, Run(file, calls), c).1.Some?
  }

  /**
    When a read is right: after every run of calls, an answered read returns exactly the range asked for,
    whatever the file holds, if and only if no read since the stream was opened failed when bytes had come
    already, or this one opens a new stream, or it asks for nothing the file has.
   */
  lemma ReadRightExactlyWhen(file: Bytes, calls: seq<Call>, c: Call)
    requires IsAnswered(file, calls, c)
    ensures (forall other: Bytes :: |other| == |file| ==> Right(other, calls, c)) <==>
              |file| <= c.offset || PutsStream(Run(file, calls), c) || !Behind(file, calls)
  {
    hide Run, Step, Lag, Behind, PutsStream, PutsNone, BytesLost, Prepared, S.Range, S.Marked;
    var r := Run(file, calls);
    RunSensible(file, calls);
    BehindIsLag(file, calls);
    LagAfter(file, r, c);
    AnsweredHasStream(file, r, c);
    var lag := Lag(Prepared(r, c));
    forall other: Bytes | |other| == |file|
      ensures Right(other, calls, c) <==>
                S.Range(other, c.offset + lag, c.offset + lag + c.length)
                == S.Range(other, c.offset, c.offset + c.length)
    {
      RunAlike(file, other, calls);
      RunSensible(other, calls);
      AnswersShifted(other, r, c);
      AnsweredAlike(file, other, r, c);
    }
    if lag > 0 && c.offset < |file| {
      ShiftShows(|file|, c.offset, lag, c.length);
      assert !Right(S.Marked(|file|, c.offset), calls, c);
    } else {
      NothingShifted(file, c.offset, lag, c.length);
    }
  }

  lemma AnsweredHasStream(file: Bytes, r: Reader, c: Call)
    requires Step(file, r, c).1.Some?
    ensures c.length > 0 && !PutsNone(r, c) && (PutsStream(r, c) || r.stream.Some?)
  {
  }

  lemma AnsweredAlike(file: Bytes, other: Bytes, r: Reader, c: Call)
    requires |file| == |other|
    ensures Step(file, r, c).1.Some? <==> Step(other, r, c).1.Some?
  {
    hide S.Range;
  }

  lemma ShiftShows(n: nat, offset: nat, lag: nat, length: nat)
    requires offset < n && lag > 0 && length > 0
    ensures var file := S.Marked(n, offset);
            S.Range(file, offset + lag, offset + lag + length) != S.Range(file, offset, offset + length)
  {
    var file := S.Marked(n, offset);
    var got, asked := S.Range(file, offset + lag, offset + lag + length), S.Range(file, offset, offset + length);
    assert asked[0] == file[offset] == 1;
    if got != [] {
      assert got[0] == file[offset + lag] == 0;
    }
  }

  lemma NothingShifted(file: Bytes, offset: nat, lag: nat, length: nat)
    requires lag == 0 || |file| <= offset
    ensures forall other: Bytes :: |other| == |file| ==>
              S.Range(other, offset + lag, offset + lag + length) == S.Range(other, offset, offset + length)
  {
  }

  /** Half a read and then the same one again: what comes back begins where the first left off. */
  lemma HalfReadMisreads(file: Bytes, first: nat, length: nat)
    requires 0 < first < length && first + length <= |file|
    ensures var half, again := Call(true, 0, length, Opens, FillBreaks(first)), Call(true, 0, length, Opens, Smooth);
            && Step(file, UNOPENED, half).1 == None
            && Step(file, Step(file, UNOPENED, half).0, again).1 == Some(S.Range(file, first, first + length))
  {
    hide S.Range;
    var half := Call(true, 0, length, Opens, FillBreaks(first));
    assert Step(file, UNOPENED, half).0 == Reader(true, Some(Stream(first, false)), 0);
  }

  // ---- exactly when reads are answered, and how often the file is opened ----

  /** What the openings so far have come to. */
  datatype Standing = Unheld | Streamless | Reading | Shut

  /** The last opening that was not refused decides; a refused one shuts the stream there was. */
  function StandingAfter(file: Bytes, calls: seq<Call>): Standing {
    if calls == [] then Unheld
    else
      var front, c := calls[..|calls| - 1], calls[|calls| - 1];
      var r := Run(file, front);
      if PutsStream(r, c) then Reading
      else if PutsNone(r, c) then Streamless
      else if c.isPending && c.length > 0 && Reopens(r, c.offset) && StandingAfter(file, front).Reading? then Shut
      else StandingAfter(file, front)
  }

  predicate StandsAs(r: Reader, standing: Standing) {
    match standing
    case Unheld => !r.held
    case Streamless => r.held && r.stream.None?
    case Reading => r.held && r.stream.Some? && !r.stream.value.closed
    case Shut => r.held && r.stream.Some? && r.stream.value.closed
  }

  lemma StepStands(file: Bytes, calls: seq<Call>, c: Call)
    requires Sensible(|file|, Run(file, calls)) && StandsAs(Run(file, calls), StandingAfter(file, calls))
    ensures StandsAs(Step(file, Run(file, calls), c).0, StandingAfter(file, calls + [c]))
  {
    hide Run, S.Range, SkippedTo, Left;
    assert (calls + [c])[..|calls|] == calls;
  }

  lemma {:induction false} RunStands(file: Bytes, calls: seq<Call>)
    ensures StandsAs(Run(file, calls), StandingAfter(file, calls))
  {
    hide Step, StandsAs;
    if calls == [] {
      NobodyStands(file);
    } else {
      var front, c := calls[..|calls| - 1], calls[|calls| - 1];
      RunStands(file, front);
      RunSensible(file, front);
      StepStands(file, front, c);
      assert calls == front + [c];
    }
  }

  lemma NobodyStands(file: Bytes)
    ensures StandsAs(Run(file, []), StandingAfter(file, []))
  {
  }

  /**
    When a read is answered at all: a sensible call that nothing breaks, which either opens the file anew or finds
    the stream of the last opening, with no opening refused since; a file that once opened to nothing goes on
    being unreadable.
   */
  lemma AnsweredExactlyWhen(file: Bytes, calls: seq<Call>, c: Call)
    ensures IsAnswered(file, calls, c) <==>
              && c.isPending && c.length > 0 && c.trouble.Smooth?
              && (PutsStream(Run(file, calls), c)
                  || (!Reopens(Run(file, calls), c.offset) && StandingAfter(file, calls).Reading?))
  {
    hide Run, S.Range, SkippedTo, Left;
    RunStands(file, calls);
  }

  /** Reads that go through and go forward: each begins where the last ended, or later. */
  ghost predicate GoesForward(calls: seq<Call>) {
    && (forall i :: 0 <= i < |calls| ==>
          calls[i].isPending && calls[i].length > 0 && calls[i].opening.Opens? && calls[i].trouble.Smooth?)
    && forall i :: 0 < i < |calls| ==> calls[i - 1].offset + calls[i - 1].length <= calls[i].offset
  }

  lemma ForwardStep(file: Bytes, r: Reader, c: Call)
    requires Sensible(|file|, r) && (r.held ==> r.stream.Some? && !r.stream.value.closed && r.position <= c.offset)
    requires c.isPending && c.length > 0 && c.opening.Opens? && c.trouble.Smooth?
    ensures var r' := Step(file, r, c).0;
            r'.held && r'.stream.Some? && !r'.stream.value.closed && r'.position <= c.offset + c.length
  {
    hide S.Range;
  }

  lemma {:induction false} ForwardKeeps(file: Bytes, calls: seq<Call>)
    requires GoesForward(calls) && calls != []
    ensures var r, last := Run(file, calls), calls[|calls| - 1];
            r.held && r.stream.Some? && !r.stream.value.closed && r.position <= last.offset + last.length
  {
    hide Step;
    var front, last := calls[..|calls| - 1], calls[|calls| - 1];
    assert forall i :: 0 <= i < |front| ==> front[i] == calls[i];
    if front != [] {
      ForwardKeeps(file, front);
      assert calls[|calls| - 2] == front[|front| - 1];
    }
    RunSensible(file, front);
    ForwardStep(file, Run(file, front), last);
  }

  /** Reading forward, the file is opened once, whatever is skipped on the way. */
  lemma {:induction false} ForwardOpensOnce(file: Bytes, calls: seq<Call>, i: nat)
    requires GoesForward(calls) && i < |calls|
    ensures PutsStream(Run(file, calls[..i]), calls[i]) <==> i == 0
  {
    hide Step;
    if i > 0 {
      var front := calls[..i];
      assert forall j :: 0 <= j < i ==> front[j] == calls[j];
      ForwardKeeps(file, front);
      assert front[|front| - 1] == calls[i - 1];
    }
  }

  // ---- the stream, the reader and the source in front of it ----

  datatype Delivery = Broken | Ended | Delivered(bytes: Bytes)

  /** An input stream: `at` bytes of the file have gone past and cannot be read again. Any call may throw. */
  class ForwardStream {
    const file: Bytes
    var at: nat
    var closed: bool

    ghost predicate Valid()
      reads this
    {
      at <= |file|
    }

    constructor (file: Bytes)
      ensures Valid() && this.file == file && at == 0 && !closed
    {
      this.file := file;
      at, closed := 0, false;
    }

    /** Skips some of what was asked, but never nothing while bytes remain. None is an I/O error. */
    method Skip(n: nat) returns (skipped: Option<nat>)
      requires Valid() && n > 0
      modifies this`at
      ensures Valid() && (closed ==> skipped.None?)
      ensures skipped.None? ==> at == old(at)
      ensures skipped.Some? ==>
                && at == old(at) + skipped.value && skipped.value <= n && (skipped.value == 0 <==> old(at) == |file|)
    {
      var fails: bool := *;
      if closed || fails { return None; }
      if at == |file| { return Some(0); }
      var most := Min(n, |file| - at);
      var k: nat :| 0 < k <= most;
      at := at + k;
      return Some(k);
    }

    /** Delivers some bytes, never none while any remain. */
    method Read(n: nat) returns (delivery: Delivery)
      requires Valid() && n > 0
      modifies this`at
      ensures Valid() && (closed ==> delivery.Broken?)
      ensures delivery.Broken? ==> at == old(at)
      ensures delivery.Ended? ==> at == old(at) == |file|
      ensures delivery.Delivered? ==>
                && 0 < |delivery.bytes| <= n && at == old(at) + |delivery.bytes|
                && delivery.bytes == file[old(at)..at]
    {
      var fails: bool := *;
      if closed || fails { return Broken; }
      if at == |file| { return Ended; }
      var most := Min(n, |file| - at);
      var k: nat :| 0 < k <= most;
      delivery := Delivered(file[at..at + k]);
      at := at + k;
    }

    method Close()
      modifies this`closed
      ensures closed
    {
      closed := true;
    }
  }

  /** One shared file: its reader, once there is one, is kept between reads and replaced only to go back. */
  class SharedFile {
    const file: Bytes
    var held: bool
    var stream: ForwardStream?
    var position: nat

    ghost predicate Valid()
      reads this, stream
    {
      (stream != null ==> stream.file == file) && Sensible(|file|, View())
    }

    ghost function View(): Reader
      reads this, stream
    {
      Reader(held, if stream == null then None else Some(Stream(stream.at, stream.closed)), position)
    }

    constructor (file: Bytes)
      ensures Valid() && this.file == file && View() == UNOPENED && stream == null
    {
      this.file := file;
      held, stream, position := false, null, 0;
    }

    method Open(offset: nat, opening: Opening) returns (ok: bool)
      requires Valid()
      modifies this, stream
      ensures Valid() && (stream == null || stream == old(stream) || fresh(stream))
      ensures View() == Opened(old(View()), offset, opening) && ok == CanRead(old(View()), offset, opening)
    {
      if !held || position > offset {
        if stream != null {
          stream.Close();
        }
        match opening {
          case Opens => stream := new ForwardStream(file);
          case Missing => stream := null;
          case Refused => return false;
        }
        held, position := true, 0;
      }
      return stream != null;
    }

    /** Passes over what lies before the offset, as far as the file goes; an I/O error leaves it part of the way. */
    method SkipTo(offset: nat) returns (ok: bool, ghost passed: nat)
      requires Valid() && stream != null && position <= offset
      modifies this`position, stream`at
      ensures Valid() && View() == Forward(old(View()), passed)
      ensures passed <= SkippedTo(|file|, old(View()), offset) - old(stream.at)
      ensures ok ==> passed == SkippedTo(|file|, old(View()), offset) - old(stream.at)
      ensures stream.closed ==> passed == 0
    {
      passed := 0;
      var s := stream;
      ghost var from := s.at;
      while position < offset
        invariant Valid() && stream == s && s.closed == old(stream.closed) && s.at == from + passed
        invariant position == old(position) + passed <= offset && held == old(held)
        invariant s.closed ==> passed == 0
        decreases |file| - s.at
      {
        var skipped := s.Skip(offset - position);
        if skipped.None? { return false, passed; }
        if skipped.value == 0 { return true, passed; }
        position := position + skipped.value;
        passed := passed + skipped.value;
      }
      ok := true;
    }

    /** Reads on until enough has come or the stream ends; None is an I/O error, and what had come by then is lost. */
    method Fill(length: nat) returns (bytes: Option<Bytes>, ghost taken: nat)
      requires Valid() && stream != null && length > 0
      modifies stream`at
      ensures Valid() && View() == Lose(old(View()), taken)
      ensures bytes.Some? ==>
                && !stream.closed && |bytes.value| == taken == Left(|file|, old(stream.at), length)
                && bytes.value == S.Range(file, old(stream.at), old(stream.at) + length)
      ensures bytes.None? ==> taken == Left(|file|, old(stream.at), Min(taken, length - 1))
      ensures stream.closed ==> taken == 0
    {
      var s, got: Bytes := stream, [];
      ghost var start := s.at;
      while |got| < length
        invariant s.Valid() && s.at == start + |got| && |got| <= length && got == file[start..s.at]
        invariant s.closed == old(stream.closed) && (s.closed ==> got == [])
        decreases |file| - s.at
      {
        var more := s.Read(length - |got|);
        match more
        case Broken => return None, |got|;
        case Ended => break;
        case Delivered(some) => got := got + some;
      }
      return Some(got), |got|;
    }

    /** One call of the plugin's read: whatever the stream does during it comes down to one of the troubles. */
    method Read(isPending: bool, offset: nat, length: int, opening: Opening)
      returns (answer: Option<Bytes>, ghost trouble: Trouble)
      requires Valid()
      modifies this, stream
      ensures Valid() && (stream == null || stream == old(stream) || fresh(stream))
      ensures (View(), answer) == Step(file, old(View()), Call(isPending, offset, length, opening, trouble))
    {
      hide S.Range;
      trouble := Smooth;
      if !isPending || length <= 0 { return None, trouble; }
      var ok := Open(offset, opening);
      if !ok { return None, trouble; }
      ghost var passed: nat, taken: nat;
      ok, passed := SkipTo(offset);
      if !ok { return None, SkipBreaks(passed); }
      answer, taken := Fill(length);
      if answer.None? { return None, FillBreaks(taken); }
      position := position + |answer.value|;
    }
  }

  /**
    A read of a shared file: the window in front, the forward-only reader behind the fetch. It returns the range
    asked for, or throws; and how far the stream is ahead afterwards is what the one call of the reader left.
   */
  method ReadShared(source: S.WindowedSource, shared: SharedFile, isPending: bool, offset: nat, length: nat,
                    opening: Opening)
    returns (bytes: Option<Bytes>)
    requires S.Aligned(source.View()) && source.pending == map[] && S.Genuine(shared.file, source.size, source.View())
    requires shared.Valid() && Lag(shared.View()) == 0
    modifies source, shared, shared.stream
    ensures shared.Valid() && source.pending == map[] && S.Genuine(shared.file, source.size, source.View())
    ensures shared.stream == null || shared.stream == old(shared.stream) || fresh(shared.stream)
    ensures bytes.Some? ==> bytes.value == S.Range(shared.file, offset, S.End(source.size, offset, length))
    ensures bytes.Some? ==> S.Aligned(source.View()) && Lag(shared.View()) == 0
    ensures bytes.None? ==> old(S.Needs(source.View(), source.size, offset, length))
  {
    hide S.Subarray, S.Range, Step;
    var answer := None;
    if S.Needs(S.Source(source.window, source.windowStart, 0, source.pending), source.size, offset, length) {
      var asked := S.FetchLength(source.size, offset, length);
      ghost var before := shared.View();
      ghost var trouble;
      answer, trouble := shared.Read(isPending, offset, asked, opening);
      ghost var c := Call(isPending, offset, asked, opening, trouble);
      AnswersShifted(shared.file, before, c);
      LagAfter(shared.file, before, c);
      if answer.Some? {
        RangeFetched(shared.file, offset, asked);
      }
    }
    bytes := source.ReadChunk(shared.file, offset, length, answer);
  }

  lemma RangeFetched(file: Bytes, offset: nat, asked: nat)
    ensures S.Fetched(file, offset, asked, S.Range(file, offset, offset + asked))
  {
  }
}
