/** The in-process stream pair: two endpoints, each with a command queue and a driver task that carries its writes to the
    other's frame queue, joined by the shared `Terminal` flags. Every poll and every driver step is one event. */
module Pipe {
  import opened Prelude

  const MAX_FRAME := 64 * 1024
  const QUEUE_DEPTH := 8

  datatype Command = Write(bytes: Bytes) | Flush

  datatype Frame = Frame(bytes: Bytes)

  /** A flush remembers how many bytes had been accepted when it was queued. */
  datatype Flushing = NoFlush | Waiting(mark: nat) | Acked(mark: nat) | Cancelled

  /** An endpoint and its `Terminal`. */
  datatype End = End(
    closed: bool, failed: bool, pending: nat, drained: bool, writeClosed: bool, dropped: bool, flushing: Flushing)

  /** `peer.send(..)`: nothing under way, a frame waiting for room, or a frame placed whose send waits for the queue to
      fall back to its depth. */
  datatype Driver = Idle | Holding(bytes: Bytes) | Placed

  /** One direction. `accepted`, `handed` and `read` are what went through each of its three doors. */
  datatype Dir = Dir(
    queue: seq<Command>, open: bool, driver: Driver, alive: bool, aborted: bool, frames: seq<Frame>,
    buffered: Bytes, cursor: nat, accepted: Bytes, handed: Bytes, read: Bytes)

  datatype Reply = Ready(n: nat) | Failed | Pending

  /** The pair seen from one endpoint: `out` carries my writes to you, `inn` yours to me. */
  datatype Half = Half(me: End, you: End, out: Dir, inn: Dir)

  datatype Pair = Pair(a: End, b: End, ab: Dir, ba: Dir)

  datatype Event =
    | PollWrite(who: Side, buf: Bytes) | PollFlush(who: Side) | PollClose(who: Side) | PollRead(who: Side, n: nat)
    | DropEnd(who: Side) | Drive(who: Side) | Abort(who: Side)

  const FRESH_END := End(false, false, 0, false, false, false, NoFlush)
  const FRESH_DIR := Dir([], true, Idle, true, false, [], [], 0, [], [], [])
  const FRESH_PAIR := Pair(FRESH_END, FRESH_END, FRESH_DIR, FRESH_DIR)

  // ----- what is under way

  function Writes(q: seq<Command>): Bytes {
    if q == [] then [] else (if q[0].Write? then q[0].bytes else []) + Writes(q[1..])
  }

  function WriteCount(q: seq<Command>): nat {
    if q == [] then 0 else (if q[0].Write? then 1 else 0) + WriteCount(q[1..])
  }

  function FlushCount(q: seq<Command>): nat {
    if q == [] then 0 else (if q[0].Flush? then 1 else 0) + FlushCount(q[1..])
  }

  /** The bytes in front of the first flush, if there is one. */
  function BeforeFlush(q: seq<Command>): Option<nat> {
    if q == [] then None
    else if q[0].Flush? then Some(0)
    else
      var rest := BeforeFlush(q[1..]);
      if rest.None? then None else Some(|q[0].bytes| + rest.value)
  }

  function Join(fs: seq<Frame>): Bytes { if fs == [] then [] else fs[0].bytes + Join(fs[1..]) }

  function Inflight(d: Driver): Bytes { if d.Holding? then d.bytes else [] }

  function Unread(d: Dir): Bytes { if d.cursor <= |d.buffered| then d.buffered[d.cursor..] else [] }

  // ----- polls

  /** A bounded channel takes one message more than its depth from its only sender. */
  predicate HasRoom<T>(q: seq<T>) { |q| <= QUEUE_DEPTH }

  function Wrote(h: Half, buf: Bytes): (Half, Reply) {
    if h.me.writeClosed || h.me.closed then (h, Failed)
    else if buf == [] then (h, Ready(0))
    else if !h.out.alive then (h, Failed)
    else if !HasRoom(h.out.queue) then (h, Pending)
    else
      var n := if |buf| <= MAX_FRAME then |buf| else MAX_FRAME;
      (h.(me := h.me.(pending := h.me.pending + 1),
          out := h.out.(queue := h.out.queue + [Write(buf[..n])], accepted := h.out.accepted + buf[..n])),
       Ready(n))
  }

  predicate FlushedOnClose(e: End) { e.drained && !e.failed }

  /** The end of `poll_flush`: what the acknowledgement says. */
  function FlushAnswer(h: Half): (Half, Reply) {
    var done := h.(me := h.me.(flushing := NoFlush));
    match h.me.flushing
    case Acked(_) => (done, Ready(0))
    case Cancelled => (done, if FlushedOnClose(h.me) then Ready(0) else Failed)
    case _ => (h, Pending)
  }

  function Flushed(h: Half): (Half, Reply) {
    if h.me.writeClosed then (h, Ready(0))
    else if h.me.closed then (h, if FlushedOnClose(h.me) then Ready(0) else Failed)
    else if h.me.flushing.NoFlush? then
      if !h.out.alive then (h, Failed)
      else if !HasRoom(h.out.queue) then (h, Pending)
      else
        FlushAnswer(h.(me := h.me.(flushing := Waiting(|h.out.accepted|)), out := h.out.(queue := h.out.queue + [Flush])))
    else FlushAnswer(h)
  }

  function ClosedHalf(h: Half): (Half, Reply) {
    var (f, r) := Flushed(h);
    if !r.Ready? then (f, r) else (f.(me := f.me.(writeClosed := true), out := f.out.(open := false)), Ready(0))
  }

  function Pull(me: End, d: Dir, n: nat): (Dir, Reply)
    decreases |d.frames|
  {
    if d.cursor < |d.buffered| then
      var k := if n <= |d.buffered| - d.cursor then n else |d.buffered| - d.cursor;
      (d.(cursor := d.cursor + k, read := d.read + d.buffered[d.cursor..d.cursor + k]), Ready(k))
    else if d.frames != [] then
      Pull(me, d.(buffered := d.frames[0].bytes, cursor := 0, frames := d.frames[1..]), n)
    else
      var e := d.(buffered := [], cursor := 0);
      (e, if me.closed || !d.alive then if me.failed then Failed else Ready(0) else Pending)
  }

  function ReadHalf(h: Half, n: nat): (Half, Reply) {
    if n == 0 then (h, Ready(0)) else var (d, r) := Pull(h.me, h.inn, n); (h.(inn := d), r)
  }

  // ----- the driver

  /** The driver's end, whatever the cause: your terminal learns whether your own writes had all been carried. */
  function Ended(h: Half): Half {
    var flushing := if h.me.flushing.Waiting? then Cancelled else h.me.flushing;
    h.(me := h.me.(flushing := flushing), you := h.you.(drained := h.you.pending == 0, closed := true), out := h.out.(alive := false))
  }

  function Driven(h: Half): Half {
    var d := h.out;
    if !d.alive then h
    else
      match d.driver
      case Idle =>
        if d.queue == [] then if d.open then h else Ended(h)
        else
          var rest := d.(queue := d.queue[1..]);
          if d.queue[0].Write? then h.(out := rest.(driver := Holding(d.queue[0].bytes)))
          else h.(out := rest, me := if h.me.flushing.Waiting? then h.me.(flushing := Acked(h.me.flushing.mark)) else h.me)
      case Holding(bytes) =>
        if h.you.dropped then Ended(h.(me := h.me.(failed := true, closed := true)))
        else if HasRoom(d.frames) then
          h.(out := d.(driver := Placed, frames := d.frames + [Frame(bytes)], handed := d.handed + bytes))
        else h
      case Placed =>
        if (HasRoom(d.frames) || h.you.dropped) && h.me.pending > 0
        then h.(out := d.(driver := Idle), me := h.me.(pending := h.me.pending - 1)) else h
  }

  function Aborted(h: Half): Half { if h.out.alive then Ended(h.(out := h.out.(aborted := true))) else h }

  // ----- the pair

  function HalfOf(p: Pair, x: Side): Half { if x == A then Half(p.a, p.b, p.ab, p.ba) else Half(p.b, p.a, p.ba, p.ab) }

  function PairOf(h: Half, x: Side): Pair {
    if x == A then Pair(h.me, h.you, h.out, h.inn) else Pair(h.you, h.me, h.inn, h.out)
  }

  /** What an event does, seen from the endpoint it happens at. A dropped endpoint is polled no more. */
  function StepHalf(h: Half, e: Event): (Half, Reply) {
    if e.Drive? then (Driven(h), Pending)
    else if e.Abort? then (Aborted(h), Pending)
    else if h.me.dropped then (h, Failed)
    else if e.PollWrite? then Wrote(h, e.buf)
    else if e.PollFlush? then Flushed(h)
    else if e.PollClose? then ClosedHalf(h)
    else if e.PollRead? then ReadHalf(h, e.n)
    else (h.(me := h.me.(dropped := true), out := h.out.(open := false)), Ready(0))
  }

  function Step(p: Pair, e: Event): (Pair, Reply) {
    var (h, r) := StepHalf(HalfOf(p, e.who), e);
    (PairOf(h, e.who), r)
  }

  function Run(p: Pair, es: seq<Event>): Pair
    decreases |es|
  {
    if es == [] then p else Run(Step(p, es[0]).0, es[1..])
  }

  // ----- the invariant of one direction, from a sender to a receiver

  /** Nothing is lost, repeated or reordered between the doors. */
  ghost predicate Carried(d: Dir) {
    && d.accepted == d.handed + (Inflight(d.driver) + Writes(d.queue))
    && d.handed == d.read + (Unread(d) + Join(d.frames))
  }

  ghost predicate Counted(s: End, d: Dir) {
    && s.pending == WriteCount(d.queue) + (if d.driver.Idle? then 0 else 1)
    && (s.drained ==> s.closed && s.pending == 0)
  }

  /** How a direction may have ended. */
  ghost predicate EndedWell(r: End, d: Dir) {
    && (r.closed && !r.failed ==> !d.alive)
    && (!d.alive && !d.aborted && !r.dropped ==> d.driver.Idle? && d.queue == [])
  }

  /** A flush under way is in the queue behind exactly the bytes it covers. */
  ghost predicate Flushes(s: End, d: Dir) {
    var ahead := BeforeFlush(d.queue);
    && (s.flushing.Waiting? ==> d.alive && ahead.Some?
                                && |d.handed| + |Inflight(d.driver)| + ahead.value == s.flushing.mark)
    && (d.alive ==> FlushCount(d.queue) == if s.flushing.Waiting? then 1 else 0)
    && (s.flushing.Acked? ==> |d.handed| >= s.flushing.mark)
  }

  ghost predicate DirOk(s: End, r: End, d: Dir) { Carried(d) && Counted(s, d) && EndedWell(r, d) && Flushes(s, d) }

  ghost predicate HalfOk(h: Half) { DirOk(h.me, h.you, h.out) && DirOk(h.you, h.me, h.inn) }

  ghost predicate PairOk(p: Pair) { DirOk(p.a, p.b, p.ab) && DirOk(p.b, p.a, p.ba) }

  // ----- queues

  lemma {:induction false} QueueAppend(q: seq<Command>, c: Command)
    ensures Writes(q + [c]) == Writes(q) + (if c.Write? then c.bytes else [])
    ensures WriteCount(q + [c]) == WriteCount(q) + (if c.Write? then 1 else 0)
    ensures FlushCount(q + [c]) == FlushCount(q) + (if c.Flush? then 1 else 0)
    ensures BeforeFlush(q + [c]) ==
              if BeforeFlush(q).Some? then BeforeFlush(q) else if c.Flush? then Some(|Writes(q)|) else None
    decreases |q|
  {
    if q == [] {
      Nil([c]);
      assert [c][1..] == [];
      Nil(if c.Write? then c.bytes else []);
    } else {
      Tail(q, [c]);
      QueueAppend(q[1..], c);
      Assoc(if q[0].Write? then q[0].bytes else [], Writes(q[1..]), if c.Write? then c.bytes else []);
    }
  }

  lemma {:induction false} NoneAhead(q: seq<Command>)
    ensures FlushCount(q) == 0 <==> BeforeFlush(q).None?
    decreases |q|
  {
    if q != [] { NoneAhead(q[1..]); }
  }

  lemma {:induction false} JoinAppend(fs: seq<Frame>, f: Frame)
    ensures Join(fs + [f]) == Join(fs) + f.bytes
    decreases |fs|
  {
    if fs == [] {
      Nil([f]);
      assert [f][1..] == [];
      Nil(f.bytes);
    } else {
      Tail(fs, [f]);
      JoinAppend(fs[1..], f);
      Assoc(fs[0].bytes, Join(fs[1..]), f.bytes);
    }
  }

  // ----- every event keeps it

  lemma WriteKeeps(h: Half, buf: Bytes)
    requires HalfOk(h)
    ensures HalfOk(Wrote(h, buf).0)
  {
    var d := h.out;
    var n := if |buf| <= MAX_FRAME then |buf| else MAX_FRAME;
    QueueAppend(d.queue, Write(buf[..n]));
    Assoc(d.handed, Inflight(d.driver) + Writes(d.queue), buf[..n]);
    Assoc(Inflight(d.driver), Writes(d.queue), buf[..n]);
    hide Writes, WriteCount, FlushCount, BeforeFlush, Join, Inflight, Unread;
  }

  lemma FlushKeeps(h: Half)
    requires HalfOk(h)
    ensures HalfOk(Flushed(h).0)
  {
    var d := h.out;
    QueueAppend(d.queue, Flush);
    NoneAhead(d.queue);
    Nil(Writes(d.queue));
    assert |d.accepted| == |d.handed| + |Inflight(d.driver)| + |Writes(d.queue)|;
    hide Writes, WriteCount, FlushCount, BeforeFlush, Join, Inflight, Unread;
  }

  lemma CloseKeeps(h: Half)
    requires HalfOk(h)
    ensures HalfOk(ClosedHalf(h).0)
  {
    hide Flushed, Writes, Join, WriteCount, FlushCount, BeforeFlush, Inflight;
    FlushKeeps(h);
  }

  lemma {:induction false} PullKeeps(me: End, d: Dir, n: nat)
    requires Carried(d)
    ensures var e := Pull(me, d, n).0;
            && Carried(e) && d.read <= e.read
            && e == d.(buffered := e.buffered, cursor := e.cursor, frames := e.frames, read := e.read)
    decreases |d.frames|
  {
    hide Writes, Inflight;
    if d.cursor < |d.buffered| {
      var k := if n <= |d.buffered| - d.cursor then n else |d.buffered| - d.cursor;
      var got, left := d.buffered[d.cursor..d.cursor + k], d.buffered[d.cursor + k..];
      assert d.buffered[d.cursor..] == got + left;
      Assoc(got, left, Join(d.frames));
      Assoc(d.read, got, left + Join(d.frames));
    } else if d.frames != [] {
      Nil(Join(d.frames));
      var e := d.(buffered := d.frames[0].bytes, cursor := 0, frames := d.frames[1..]);
      assert Unread(d) == [] && Unread(e) == e.buffered;
      PullKeeps(me, e, n);
    }
  }

  lemma ReadKeeps(h: Half, n: nat)
    requires HalfOk(h)
    ensures HalfOk(ReadHalf(h, n).0)
  {
    PullKeeps(h.me, h.inn, n);
    hide Pull, Carried, WriteCount, FlushCount, BeforeFlush, Inflight;
  }

  lemma EndKeeps(h: Half)
    requires HalfOk(h) && h.out.alive
    requires h.out.aborted || h.you.dropped || (h.out.driver.Idle? && h.out.queue == [])
    ensures HalfOk(Ended(h))
  {
    hide Writes, Join, WriteCount, FlushCount, BeforeFlush, Inflight;
  }

  lemma TakeKeeps(h: Half)
    requires HalfOk(h) && h.out.alive && h.out.driver.Idle? && h.out.queue != []
    ensures HalfOk(Driven(h))
  {
    var d := h.out;
    var c := d.queue[0];
    assert Inflight(Idle) == [] && (c.Write? ==> Inflight(Holding(c.bytes)) == c.bytes);
    Nil(Writes(d.queue));
    Nil(Writes(d.queue[1..]));
    NoneAhead(d.queue[1..]);
    hide Join, Unread, Inflight;
  }

  lemma PlaceKeeps(h: Half)
    requires HalfOk(h) && h.out.alive && !h.out.driver.Idle?
    ensures HalfOk(Driven(h))
  {
    var d := h.out;
    assert Inflight(Placed) == [] == Inflight(Idle) && Inflight(d.driver) == if d.driver.Holding? then d.driver.bytes else [];
    if d.driver.Holding? {
      var bytes := d.driver.bytes;
      JoinAppend(d.frames, Frame(bytes));
      Assoc(d.handed, bytes, Writes(d.queue));
      Nil(Writes(d.queue));
      Assoc(d.read, Unread(d) + Join(d.frames), bytes);
      Assoc(Unread(d), Join(d.frames), bytes);
    }
    hide Join, Writes, WriteCount, FlushCount, BeforeFlush, Unread, Inflight;
    if d.driver.Holding? && h.you.dropped { EndKeeps(h.(me := h.me.(failed := true, closed := true))); }
  }

  lemma DriveKeeps(h: Half)
    requires HalfOk(h)
    ensures HalfOk(Driven(h))
  {
    hide Carried, Counted, Flushes;
    if h.out.alive {
      if !h.out.driver.Idle? { PlaceKeeps(h); }
      else if h.out.queue != [] { TakeKeeps(h); }
      else if !h.out.open { EndKeeps(h); }
    }
  }

  lemma StepHalfKeeps(h: Half, e: Event)
    requires HalfOk(h)
    ensures HalfOk(StepHalf(h, e).0)
  {
    hide Wrote, Flushed, ClosedHalf, ReadHalf, Driven, Writes, WriteCount, FlushCount, BeforeFlush, Join;
    match e
    case Drive(_) => DriveKeeps(h);
    case Abort(_) => if h.out.alive { EndKeeps(h.(out := h.out.(aborted := true))); }
    case PollWrite(_, buf) => WriteKeeps(h, buf);
    case PollFlush(_) => FlushKeeps(h);
    case PollClose(_) => CloseKeeps(h);
    case PollRead(_, n) => ReadKeeps(h, n);
    case DropEnd(_) =>
  }

  lemma StepKeeps(p: Pair, e: Event)
    requires PairOk(p)
    ensures PairOk(Step(p, e).0)
  {
    hide StepHalf, DirOk;
    StepHalfKeeps(HalfOf(p, e.who), e);
  }

  lemma {:induction false} RunKeeps(p: Pair, es: seq<Event>)
    requires PairOk(p)
    ensures PairOk(Run(p, es))
    decreases |es|
  {
    if es != [] {
      hide PairOk, Step;
      StepKeeps(p, es[0]);
      RunKeeps(Step(p, es[0]).0, es[1..]);
    }
  }

  // ----- the pair is a pair of byte streams

  /** In every schedule, aborts and drops included, what an endpoint has read is a prefix of what the other was told was
      accepted. */
  lemma ReadsArePrefix(es: seq<Event>, x: Side)
    ensures var h := HalfOf(Run(FRESH_PAIR, es), x); h.inn.read <= h.inn.handed <= h.inn.accepted
  {
    RunKeeps(FRESH_PAIR, es);
  }

  predicate NoAbort(es: seq<Event>) { forall i :: 0 <= i < |es| ==> !es[i].Abort? }

  lemma StepAborts(p: Pair, e: Event)
    requires !e.Abort? && !p.ab.aborted && !p.ba.aborted
    ensures var q := Step(p, e).0; !q.ab.aborted && !q.ba.aborted
  {
    if e.PollRead? { PullAborts(HalfOf(p, e.who).me, HalfOf(p, e.who).inn, e.n); }
    hide Pull;
  }

  lemma {:induction false} PullAborts(me: End, d: Dir, n: nat)
    ensures Pull(me, d, n).0.aborted == d.aborted
    decreases |d.frames|
  {
    if d.frames != [] { PullAborts(me, d.(buffered := d.frames[0].bytes, cursor := 0, frames := d.frames[1..]), n); }
  }

  lemma {:induction false} RunAborts(p: Pair, es: seq<Event>)
    requires NoAbort(es) && !p.ab.aborted && !p.ba.aborted
    ensures var q := Run(p, es); !q.ab.aborted && !q.ba.aborted
    decreases |es|
  {
    if es != [] {
      StepAborts(p, es[0]);
      hide Step;
      RunAborts(Step(p, es[0]).0, es[1..]);
    }
  }

  lemma {:induction false} PullEnd(me: End, d: Dir, n: nat)
    requires n > 0 && Pull(me, d, n).1 == Ready(0)
    ensures var e := Pull(me, d, n).0; Unread(e) == [] && e.frames == [] && !me.failed && (me.closed || !e.alive)
    decreases |d.frames|
  {
    if d.cursor >= |d.buffered| && d.frames != [] {
      PullEnd(me, d.(buffered := d.frames[0].bytes, cursor := 0, frames := d.frames[1..]), n);
    }
  }

  lemma EndOfStream(h: Half, n: nat)
    requires HalfOk(h) && n > 0 && !h.me.dropped && !h.inn.aborted && ReadHalf(h, n).1 == Ready(0)
    ensures var d := ReadHalf(h, n).0.inn; d.read == d.accepted
  {
    PullEnd(h.me, h.inn, n);
    PullKeeps(h.me, h.inn, n);
    var d := Pull(h.me, h.inn, n).0;
    Nil(d.read);
    Nil(d.handed);
    assert Join([]) == [] && Writes([]) == [];
    hide Pull;
  }

  /** While no driver task is aborted, a read of at least one byte returns the clean end of the stream only when
      everything the other endpoint had accepted has been read. */
  lemma CleanEndIsComplete(es: seq<Event>, x: Side, n: nat)
    requires NoAbort(es) && n > 0 && !HalfOf(Run(FRESH_PAIR, es), x).me.dropped
    ensures var (p, r) := Step(Run(FRESH_PAIR, es), PollRead(x, n));
            r == Ready(0) ==> HalfOf(p, x).inn.read == HalfOf(p, x).inn.accepted
  {
    RunKeeps(FRESH_PAIR, es);
    RunAborts(FRESH_PAIR, es);
    var h := HalfOf(Run(FRESH_PAIR, es), x);
    hide Run, Pull, DirOk;
    if ReadHalf(h, n).1 == Ready(0) { EndOfStream(h, n); }
  }

  /** What a flush that is already queued covers; one that still has to be queued covers everything. */
  function Covered(h: Half): nat { if h.me.flushing.Acked? then h.me.flushing.mark else |h.out.accepted| }

  lemma FlushHands(h: Half)
    requires HalfOk(h) && Flushed(h).1.Ready? && !h.me.writeClosed
    ensures |h.out.handed| >= Covered(h) || |h.out.handed| == |h.out.accepted|
  {
    if h.me.drained {
      NothingPending(h.out.queue);
      assert h.out.driver.Idle?;
    }
    hide Writes, WriteCount, FlushCount, BeforeFlush, Join, Unread;
  }

  lemma {:induction false} NothingPending(q: seq<Command>)
    ensures WriteCount(q) == 0 ==> Writes(q) == []
    decreases |q|
  {
    if q != [] { NothingPending(q[1..]); }
  }

  /** In every schedule, a flush that succeeds on an endpoint whose write side is open has put into the peer's queue
      every byte accepted before that flush was queued. */
  lemma FlushMeansHanded(es: seq<Event>, x: Side)
    ensures var h := HalfOf(Run(FRESH_PAIR, es), x);
            Flushed(h).1.Ready? && !h.me.writeClosed ==> |h.out.handed| >= Covered(h)
  {
    RunKeeps(FRESH_PAIR, es);
    var h := HalfOf(Run(FRESH_PAIR, es), x);
    hide Run, Flushed, DirOk;
    if Flushed(h).1.Ready? && !h.me.writeClosed {
      FlushHands(h);
      if h.me.flushing.Acked? { AckedCovers(h); }
    }
  }

  lemma AckedCovers(h: Half)
    requires HalfOk(h) && h.me.flushing.Acked?
    ensures |h.out.handed| >= h.me.flushing.mark
  {
  }

  /** The write side is closed and nothing it accepted is still under way. */
  predicate Delivered(s: End, d: Dir) { s.writeClosed && d.handed == d.accepted }

  lemma DoorsOnlyFill(h: Half, e: Event)
    ensures var k := StepHalf(h, e).0;
            && h.out.handed <= k.out.handed
            && (h.me.writeClosed ==> k.me.writeClosed && k.out.accepted == h.out.accepted)
            && k.you.writeClosed == h.you.writeClosed && k.inn.accepted == h.inn.accepted && k.inn.handed == h.inn.handed
  {
    if e.PollRead? { PullDoors(h.me, h.inn, e.n); }
    hide Pull;
  }

  lemma {:induction false} PullDoors(me: End, d: Dir, n: nat)
    ensures var e := Pull(me, d, n).0; e.accepted == d.accepted && e.handed == d.handed
    decreases |d.frames|
  {
    if d.frames != [] { PullDoors(me, d.(buffered := d.frames[0].bytes, cursor := 0, frames := d.frames[1..]), n); }
  }

  lemma HandedIsAccepted(s: End, r: End, d: Dir)
    requires DirOk(s, r, d)
    ensures d.handed <= d.accepted
  {
    hide Writes, Join, Unread, Counted, EndedWell, Flushes;
  }

  lemma SettledHalf(h: Half, e: Event)
    requires HalfOk(h)
    ensures var k := StepHalf(h, e).0;
            && (Delivered(h.me, h.out) ==> Delivered(k.me, k.out) && k.out.accepted == h.out.accepted)
            && (Delivered(h.you, h.inn) ==> Delivered(k.you, k.inn) && k.inn.accepted == h.inn.accepted)
  {
    hide StepHalf, DirOk;
    DoorsOnlyFill(h, e);
    StepHalfKeeps(h, e);
    var k := StepHalf(h, e).0;
    HandedIsAccepted(k.me, k.you, k.out);
  }

  lemma {:induction false} SettledRun(p: Pair, es: seq<Event>, x: Side)
    requires PairOk(p) && Delivered(HalfOf(p, x).me, HalfOf(p, x).out)
    ensures var h := HalfOf(Run(p, es), x); Delivered(h.me, h.out) && h.out.accepted == HalfOf(p, x).out.accepted
    decreases |es|
  {
    if es != [] {
      hide StepHalf, DirOk;
      StepKeeps(p, es[0]);
      SettledHalf(HalfOf(p, es[0].who), es[0]);
      SettledRun(Step(p, es[0]).0, es[1..], x);
    }
  }

  /** After the write side is closed a flush always succeeds. If no write was accepted while the close was waiting for its
      flush, that answer is true at once and stays true: everything accepted has been handed over. */
  lemma CloseHandsEverything(es: seq<Event>, x: Side, more: seq<Event>)
    requires var h := HalfOf(Run(FRESH_PAIR, es), x);
             !h.me.dropped && !h.me.writeClosed && Covered(h) == |h.out.accepted| && ClosedHalf(h).1.Ready?
    ensures var h := HalfOf(Run(FRESH_PAIR, es), x);
            var later := HalfOf(Run(Step(Run(FRESH_PAIR, es), PollClose(x)).0, more), x);
            later.out.handed == later.out.accepted == h.out.accepted && Flushed(later).1.Ready?
  {
    RunKeeps(FRESH_PAIR, es);
    var p := Run(FRESH_PAIR, es);
    var h := HalfOf(p, x);
    hide Run;
    FlushHands(h);
    var q := Step(p, PollClose(x)).0;
    ClosedDelivers(h);
    StepKeeps(p, PollClose(x));
    hide ClosedHalf, DirOk;
    SettledRun(q, more, x);
  }

  lemma ClosedDelivers(h: Half)
    requires HalfOk(h) && ClosedHalf(h).1.Ready? && |h.out.handed| >= |h.out.accepted|
    ensures var k := ClosedHalf(h).0; Delivered(k.me, k.out) && k.out.accepted == h.out.accepted
  {
    hide Writes, Join, WriteCount, FlushCount, BeforeFlush, Unread;
    assert h.out.handed <= h.out.accepted;
  }

  /** The moment the driver acknowledges, a waiting flush or close succeeds, and its success is true exactly when nothing was
      accepted since it was first asked for. */
  lemma AtAckExactly(es: seq<Event>, x: Side)
    ensures var h := HalfOf(Run(FRESH_PAIR, es), x);
            var k := Driven(h);
            h.me.flushing.Waiting? && k.me.flushing.Acked? && !h.me.writeClosed && !h.me.closed ==>
              && Flushed(k).1.Ready? && ClosedHalf(k).1.Ready?
              && (Flushed(k).0.out.handed == h.out.accepted <==> h.me.flushing.mark == |h.out.accepted|)
              && (ClosedHalf(k).0.out.handed == h.out.accepted <==> h.me.flushing.mark == |h.out.accepted|)
  {
    RunKeeps(FRESH_PAIR, es);
    var h := HalfOf(Run(FRESH_PAIR, es), x);
    hide Run;
    HandedIsAccepted(h.me, h.you, h.out);
    if h.me.flushing.Waiting? && Driven(h).me.flushing.Acked? { AckAtMark(h); }
    hide DirOk, Writes, Join, WriteCount, FlushCount, BeforeFlush;
  }

  lemma AckAtMark(h: Half)
    requires HalfOk(h) && h.me.flushing.Waiting? && Driven(h).me.flushing.Acked?
    ensures |h.out.handed| == h.me.flushing.mark && Driven(h).out.handed == h.out.handed && Driven(h).out.accepted == h.out.accepted
    ensures Driven(h).me == h.me.(flushing := Acked(h.me.flushing.mark))
  {
    hide Writes, Join, WriteCount, FlushCount;
  }

  /** A flush polled again answers for its first request: it succeeds with a byte accepted in between still queued. */
  lemma PolledFlushCanLag()
    ensures var p := Run(FRESH_PAIR, [PollFlush(A), PollWrite(A, [7]), Drive(A)]);
            Step(p, PollFlush(A)).1 == Ready(0) && p.ab.accepted == [7] && p.ab.handed == []
  {
    var es := [PollFlush(A), PollWrite(A, [7]), Drive(A)];
    var p1 := Step(FRESH_PAIR, es[0]).0;
    assert p1.ab.queue == [Flush] && p1.a.flushing == Waiting(0);
    var seven: Bytes := [7];
    assert seven[..1] == seven;
    var p2 := Step(p1, es[1]).0;
    assert p2.ab.queue == [Flush, Write([7])] && p2.ab.accepted == [7];
    var p3 := Step(p2, es[2]).0;
    assert p3.a.flushing == Acked(0);
    assert es[1..] == [es[1], es[2]] && es[1..][1..] == [es[2]] && es[1..][1..][1..] == [];
    assert Run(p2, [es[2]]) == Run(p3, []);
    assert Run(p1, [es[1], es[2]]) == Run(p2, [es[2]]);
  }

  /** Without that condition it can fail: a write accepted while the close was waiting is still in the queue when a flush
      reports success. */
  lemma FlushAfterCloseCanLag()
    ensures var p := Run(FRESH_PAIR, [PollClose(A), PollWrite(A, [7]), Drive(A), PollClose(A)]);
            Step(p, PollFlush(A)).1 == Ready(0) && p.ab.accepted == [7] && p.ab.handed == []
  {
    var es := [PollClose(A), PollWrite(A, [7]), Drive(A), PollClose(A)];
    var p1 := Step(FRESH_PAIR, es[0]).0;
    assert p1.ab.queue == [Flush] && !p1.a.writeClosed && p1.a.flushing == Waiting(0);
    var seven: Bytes := [7];
    assert seven[..1] == seven;
    var p2 := Step(p1, es[1]).0;
    assert p2.ab.queue == [Flush, Write([7])] && p2.ab.accepted == [7];
    var p3 := Step(p2, es[2]).0;
    assert p3.ab.queue == [Write([7])] && p3.a.flushing == Acked(0);
    var p4 := Step(p3, es[3]).0;
    assert es[1..] == [es[1], es[2], es[3]] && es[1..][1..] == [es[2], es[3]] && es[1..][1..][1..] == [es[3]];
    assert es[1..][1..][1..][1..] == [];
    assert Run(p3, [es[3]]) == Run(p4, []);
    assert Run(p2, [es[2], es[3]]) == Run(p3, [es[3]]);
    assert Run(p1, [es[1], es[2], es[3]]) == Run(p2, [es[2], es[3]]);
  }

  // ----- the endpoint as an object

  /** `BrowserTcpStream` with the channels and terminals it shares. */
  class Stream {
    var me: End
    var you: End
    var out: Dir
    var inn: Dir

    function View(): Half reads this { Half(me, you, out, inn) }

    constructor ()
      ensures View() == HalfOf(FRESH_PAIR, A)
    {
      me, you, out, inn := FRESH_END, FRESH_END, FRESH_DIR, FRESH_DIR;
    }

    /** Fills the front of `buf` with the next bytes of the stream. */
    method PollRead(buf: array<byte>) returns (r: Reply)
      modifies this`inn, buf
      ensures (View(), r) == ReadHalf(old(View()), buf.Length)
      ensures r.Ready? ==> r.n <= buf.Length && inn.read == old(inn.read) + buf[..r.n]
      ensures forall i :: (if r.Ready? then r.n else 0) <= i < buf.Length ==> buf[i] == old(buf[i])
    {
      if buf.Length == 0 {
        Nil(inn.read);
        return Ready(0);
      }
      while true
        invariant Pull(me, inn, buf.Length) == Pull(old(me), old(inn), buf.Length)
        invariant inn.read == old(inn.read) && buf[..] == old(buf[..])
        decreases |inn.frames|
      {
        if inn.cursor < |inn.buffered| {
          var n := if buf.Length <= |inn.buffered| - inn.cursor then buf.Length else |inn.buffered| - inn.cursor;
          var c, from := inn.cursor, inn.buffered;
          forall i | 0 <= i < n { buf[i] := from[c + i]; }
          assert buf[..n] == from[c..c + n];
          inn := inn.(cursor := c + n, read := inn.read + from[c..c + n]);
          return Ready(n);
        }
        if inn.frames == [] {
          inn := inn.(buffered := [], cursor := 0);
          Nil(inn.read);
          if me.closed || !inn.alive { return if me.failed then Failed else Ready(0); }
          return Pending;
        }
        inn := inn.(buffered := inn.frames[0].bytes, cursor := 0, frames := inn.frames[1..]);
      }
    }

    method PollWrite(buf: Bytes) returns (r: Reply)
      modifies this`me, this`out
      ensures (View(), r) == Wrote(old(View()), buf)
    {
      if me.writeClosed || me.closed { return Failed; }
      if buf == [] { return Ready(0); }
      if !out.alive { return Failed; }
      if |out.queue| > QUEUE_DEPTH { return Pending; }
      var n := if |buf| <= MAX_FRAME then |buf| else MAX_FRAME;
      me := me.(pending := me.pending + 1);
      out := out.(queue := out.queue + [Write(buf[..n])], accepted := out.accepted + buf[..n]);
      return Ready(n);
    }

    method PollFlush() returns (r: Reply)
      modifies this`me, this`out
      ensures (View(), r) == Flushed(old(View()))
    {
      if me.writeClosed { return Ready(0); }
      if me.closed { return if FlushedOnClose(me) then Ready(0) else Failed; }
      if me.flushing.NoFlush? {
        if !out.alive { return Failed; }
        if |out.queue| > QUEUE_DEPTH { return Pending; }
        out := out.(queue := out.queue + [Flush]);
        me := me.(flushing := Waiting(|out.accepted|));
      }
      if me.flushing.Waiting? { return Pending; }
      var acked := me.flushing.Acked?;
      me := me.(flushing := NoFlush);
      return if acked || FlushedOnClose(me) then Ready(0) else Failed;
    }

    method PollClose() returns (r: Reply)
      modifies this`me, this`out
      ensures (View(), r) == ClosedHalf(old(View()))
    {
      r := PollFlush();
      if r.Ready? {
        me := me.(writeClosed := true);
        out := out.(open := false);
        r := Ready(0);
      }
    }
  }
}
