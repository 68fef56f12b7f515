/** What an endpoint is told: when a read returns data, the end of the stream, a failure or nothing yet. */
module PipeEnds {
  import opened Prelude
  import opened Pipe

  // ----- frames carry something, and the queues are short

  predicate Sized(b: Bytes) { 1 <= |b| <= 65_536 }

  /** At most nine commands and nine frames wait, and each carries between one byte and 64 KiB. */
  predicate Tight(d: Dir) {
    && |d.queue| <= 9 && |d.frames| <= 9
    && (forall i :: 0 <= i < |d.queue| && d.queue[i].Write? ==> Sized(d.queue[i].bytes))
    && (forall i :: 0 <= i < |d.frames| ==> Sized(d.frames[i].bytes))
    && (d.driver.Holding? ==> Sized(d.driver.bytes)) && |d.buffered| <= 65_536
  }

  /** A write side that is closed, or whose endpoint was dropped, takes no more commands. */
  predicate Shut(s: End, d: Dir) { s.writeClosed || s.dropped ==> !d.open }

  ghost predicate HalfTight(h: Half) { Tight(h.out) && Tight(h.inn) && Shut(h.me, h.out) && Shut(h.you, h.inn) }

  lemma {:induction false} PullTight(me: End, d: Dir, n: nat)
    requires Tight(d)
    ensures var e := Pull(me, d, n).0; Tight(e) && e.open == d.open
    decreases |d.frames|
  {
    if d.cursor >= |d.buffered| && d.frames != [] {
      var e := d.(buffered := d.frames[0].bytes, cursor := 0, frames := d.frames[1..]);
      assert forall i :: 0 <= i < |e.frames| ==> e.frames[i] == d.frames[i + 1];
      PullTight(me, e, n);
    }
  }

  lemma DriveTight(h: Half)
    requires HalfTight(h)
    ensures HalfTight(Driven(h))
  {
  }

  lemma PollsTight(h: Half, buf: Bytes)
    requires HalfTight(h)
    ensures HalfTight(Wrote(h, buf).0) && HalfTight(Flushed(h).0) && HalfTight(ClosedHalf(h).0)
  {
  }

  lemma StepTight(h: Half, e: Event)
    requires HalfTight(h)
    ensures HalfTight(StepHalf(h, e).0)
  {
    hide Wrote, Flushed, ClosedHalf, Driven, Pull, Tight;
    match e
    case Drive(_) => DriveTight(h);
    case PollWrite(_, buf) => PollsTight(h, buf);
    case PollRead(_, n) => PullTight(h.me, h.inn, n);
    case Abort(_) => EndTight(h.out);
    case DropEnd(_) => EndTight(h.out);
    case _ => PollsTight(h, []);
  }

  lemma EndTight(d: Dir)
    requires Tight(d)
    ensures Tight(d.(aborted := true, alive := false)) && Tight(d.(open := false))
  {
  }

  lemma {:induction false} RunTight(p: Pair, es: seq<Event>, x: Side)
    requires HalfTight(HalfOf(p, A))
    ensures HalfTight(HalfOf(Run(p, es), x))
    decreases |es|
  {
    hide StepHalf, Tight, Shut;
    if es != [] {
      StepTight(HalfOf(p, es[0].who), es[0]);
      RunTight(Step(p, es[0]).0, es[1..], x);
    }
  }

  /** In every schedule no queue holds more than nine messages, and no message more than 64 KiB: backpressure bounds what is
      under way. */
  lemma QueuesStayShort(es: seq<Event>, x: Side)
    ensures var d := HalfOf(Run(FRESH_PAIR, es), x).out;
            && |d.queue| <= 9 && |d.frames| <= 9 && |d.accepted| - |d.read| <= 20 * 65_536
  {
    RunTight(FRESH_PAIR, es, x);
    RunKeeps(FRESH_PAIR, es);
    var d := HalfOf(Run(FRESH_PAIR, es), x).out;
    hide Run, Counted, EndedWell, Flushes, Carried;
    UnderWay(d);
  }

  lemma UnderWay(d: Dir)
    requires Carried(d) && Tight(d)
    ensures |d.accepted| - |d.read| <= 20 * 65_536
  {
    WritesShort(d.queue);
    JoinShort(d.frames);
    hide Writes, Join;
  }

  lemma {:induction false} WritesShort(q: seq<Command>)
    requires forall i :: 0 <= i < |q| && q[i].Write? ==> Sized(q[i].bytes)
    ensures |Writes(q)| <= |q| * 65_536 && (Writes(q) == [] ==> forall i :: 0 <= i < |q| ==> q[i].Flush?)
    decreases |q|
  {
    if q != [] {
      assert forall i :: 0 <= i < |q[1..]| ==> q[1..][i] == q[i + 1];
      WritesShort(q[1..]);
    }
  }

  lemma {:induction false} JoinShort(fs: seq<Frame>)
    requires forall i :: 0 <= i < |fs| ==> Sized(fs[i].bytes)
    ensures |Join(fs)| <= |fs| * 65_536 && (Join(fs) == [] ==> fs == [])
    decreases |fs|
  {
    if fs != [] {
      assert forall i :: 0 <= i < |fs[1..]| ==> fs[1..][i] == fs[i + 1];
      JoinShort(fs[1..]);
    }
  }

  // ----- what a read says

  /** What a read of at most `n` bytes gives: the next bytes there are; when there are none, the end of a stream that has ended,
      or its failure; and otherwise nothing yet. */
  ghost predicate SaysRightly(me: End, d: Dir, e: Dir, r: Reply, n: nat) {
    if |d.read| < |d.handed| then r.Ready? && 0 < r.n <= n && |d.read| + r.n <= |d.handed| && e.read == d.handed[..|d.read| + r.n]
    else e.read == d.read && r == if !me.closed && d.alive then Pending else if me.failed then Failed else Ready(0)
  }

  lemma TakeSays(me: End, d: Dir, k: nat, n: nat)
    requires Carried(d) && 0 < k <= n && d.cursor + k <= |d.buffered|
    ensures SaysRightly(me, d, d.(cursor := d.cursor + k, read := d.read + d.buffered[d.cursor..d.cursor + k]), Ready(k), n)
  {
    var got, left, frames := d.buffered[d.cursor..d.cursor + k], d.buffered[d.cursor + k..], Join(d.frames);
    assert Unread(d) == got + left;
    assert d.handed == d.read + ((got + left) + frames);
    hide Carried, Join, Unread;
    Assoc(got, left, frames);
    Assoc(d.read, got, left + frames);
    Halves(d.read + got, left + frames);
  }

  lemma NextIsCarried(d: Dir)
    requires Carried(d) && Tight(d) && d.cursor >= |d.buffered| && d.frames != []
    ensures var e := d.(buffered := d.frames[0].bytes, cursor := 0, frames := d.frames[1..]);
            Carried(e) && Tight(e) && |e.buffered| > 0
  {
    var e := d.(buffered := d.frames[0].bytes, cursor := 0, frames := d.frames[1..]);
    Nil(Join(d.frames));
    assert Unread(d) == [] && Unread(e) == e.buffered;
    assert forall i :: 0 <= i < |e.frames| ==> e.frames[i] == d.frames[i + 1];
    hide Writes, Inflight, Unread;
  }

  lemma AllRead(d: Dir)
    requires Carried(d) && d.cursor >= |d.buffered| && d.frames == []
    ensures d.handed == d.read
  {
    Nil(d.read);
    hide Writes;
  }

  lemma PullSays(me: End, d: Dir, n: nat)
    requires Carried(d) && Tight(d) && n > 0
    ensures SaysRightly(me, d, Pull(me, d, n).0, Pull(me, d, n).1, n)
  {
    hide Carried, Tight, SaysRightly;
    if d.cursor < |d.buffered| {
      TakeSays(me, d, if n <= |d.buffered| - d.cursor then n else |d.buffered| - d.cursor, n);
    } else if d.frames != [] {
      NextIsCarried(d);
      var e := d.(buffered := d.frames[0].bytes, cursor := 0, frames := d.frames[1..]);
      TakeSays(me, e, if n <= |e.buffered| then n else |e.buffered|, n);
      SaysAlike(me, e, d, Pull(me, e, n).0, Pull(me, e, n).1, n);
    } else {
      AllRead(d);
      EndSays(me, d, d.(buffered := [], cursor := 0), n);
    }
  }

  lemma EndSays(me: End, d: Dir, e: Dir, n: nat)
    requires d.handed == d.read && e.read == d.read
    ensures SaysRightly(me, d, e, if me.closed || !d.alive then if me.failed then Failed else Ready(0) else Pending, n)
  {
  }

  lemma SaysAlike(me: End, d: Dir, d': Dir, e: Dir, r: Reply, n: nat)
    requires SaysRightly(me, d, e, r, n) && d'.read == d.read && d'.handed == d.handed && d'.alive == d.alive
    ensures SaysRightly(me, d', e, r, n)
  {
  }

  /** In every schedule a read says exactly that. */
  lemma ReadsExactly(es: seq<Event>, x: Side, n: nat)
    requires n > 0 && !HalfOf(Run(FRESH_PAIR, es), x).me.dropped
    ensures var h := HalfOf(Run(FRESH_PAIR, es), x);
            var (p, r) := Step(Run(FRESH_PAIR, es), PollRead(x, n));
            SaysRightly(h.me, h.inn, HalfOf(p, x).inn, r, n)
  {
    hide Run, DirOk, Tight, Shut, StepHalf, SaysRightly;
    FreshIsGood();
    RunKeeps(FRESH_PAIR, es);
    RunTight(FRESH_PAIR, es, x);
    HalfSays(HalfOf(Run(FRESH_PAIR, es), x), PollRead(x, n));
  }

  lemma FreshIsGood()
    ensures PairOk(FRESH_PAIR) && HalfTight(HalfOf(FRESH_PAIR, A)) && Whole(FRESH_PAIR)
  {
  }

  lemma HalfSays(h: Half, e: Event)
    requires HalfOk(h) && HalfTight(h) && !h.me.dropped && e.PollRead? && e.n > 0
    ensures SaysRightly(h.me, h.inn, StepHalf(h, e).0.inn, StepHalf(h, e).1, e.n)
  {
    assert Carried(h.inn) && Tight(h.inn);
    hide DirOk, Tight, Shut, Carried, SaysRightly, Pull;
    PullSays(h.me, h.inn, e.n);
  }

  /** A write is taken up to 64 KiB, or refused because this side or the stream is closed, or waits behind nine others; what is
      reported is what is accepted. */
  lemma WritesExactly(p: Pair, x: Side, buf: Bytes)
    requires !HalfOf(p, x).me.dropped
    ensures var h := HalfOf(p, x);
            var (q, r) := Step(p, PollWrite(x, buf));
            && (r.Failed? <==> h.me.writeClosed || h.me.closed || (buf != [] && !h.out.alive))
            && (r.Pending? <==> !h.me.writeClosed && !h.me.closed && buf != [] && h.out.alive && |h.out.queue| > 8)
            && (r.Ready? ==> r.n == (if |buf| <= 65_536 then |buf| else 65_536) && HalfOf(q, x).out.accepted == h.out.accepted + buf[..r.n])
            && (!r.Ready? ==> q == p)
  {
    Nil(HalfOf(p, x).out.accepted);
  }

  // ----- the clean end

  /** No end is dropped and no driver task aborted. */
  predicate Peaceful(es: seq<Event>) { forall i :: 0 <= i < |es| ==> !es[i].Abort? && !es[i].DropEnd? }

  predicate Whole(p: Pair) { !p.a.dropped && !p.b.dropped && !p.a.failed && !p.b.failed }

  lemma StepWhole(p: Pair, e: Event)
    requires Whole(p) && !e.Abort? && !e.DropEnd?
    ensures Whole(Step(p, e).0)
  {
    hide Pull;
  }

  lemma {:induction false} RunWhole(p: Pair, es: seq<Event>)
    requires Whole(p) && Peaceful(es)
    ensures Whole(Run(p, es))
    decreases |es|
  {
    if es != [] {
      StepWhole(p, es[0]);
      hide Step, Whole;
      assert forall i :: 0 <= i < |es[1..]| ==> es[1..][i] == es[i + 1];
      RunWhole(Step(p, es[0]).0, es[1..]);
    }
  }

  /** Everything accepted was read, so the driver has at most a flush left to do. */
  lemma NothingLeft(h: Half)
    requires HalfOk(h) && HalfTight(h) && h.out.read == h.out.accepted && h.out.alive
    ensures h.out.frames == [] && !h.out.driver.Holding? && (h.out.driver.Placed? ==> h.me.pending == 1)
    ensures h.out.queue == [] || h.out.queue == [Flush]
  {
    var d := h.out;
    WritesShort(d.queue);
    JoinShort(d.frames);
    assert |Inflight(d.driver) + Writes(d.queue)| == 0 && |Unread(d) + Join(d.frames)| == 0;
    assert Writes(d.queue) == [] && Join(d.frames) == [] && Inflight(d.driver) == [];
    FlushesOnly(d.queue);
    hide Writes, Join, BeforeFlush, WriteCount, FlushCount;
  }

  lemma {:induction false} FlushesOnly(q: seq<Command>)
    requires forall i :: 0 <= i < |q| ==> q[i].Flush?
    ensures WriteCount(q) == 0 && FlushCount(q) == |q|
    decreases |q|
  {
    if q != [] { FlushesOnly(q[1..]); }
  }

  lemma ThreeDrives(h: Half)
    requires HalfOk(h) && HalfTight(h) && h.out.read == h.out.accepted && !h.out.open && !h.you.dropped
    ensures var k := Driven(Driven(Driven(h)));
            && !k.out.alive && k.out.read == h.out.read && k.out.handed == h.out.handed && k.out.accepted == h.out.accepted
            && k.you.failed == h.you.failed && k.you.dropped == h.you.dropped
  {
    if h.out.alive { NothingLeft(h); }
    hide HalfOk, HalfTight;
  }

  lemma {:induction false} RunAppend(p: Pair, es: seq<Event>, e: Event)
    ensures Run(p, es + [e]) == Step(Run(p, es), e).0
    decreases |es|
  {
    hide Step;
    if es == [] {
      Nil([e]);
      assert [e][1..] == [];
    } else {
      Tail(es, [e]);
      RunAppend(Step(p, es[0]).0, es[1..], e);
    }
  }

  /** Three turns of the other's driver, and the stream into `x` has ended with nothing more to read. */
  lemma EndsAfterTurns(p: Pair, x: Side)
    requires PairOk(p) && HalfTight(HalfOf(p, Other(x)))
    requires var h := HalfOf(p, x); !h.me.dropped && !h.me.failed && (h.you.writeClosed || h.you.dropped) && h.inn.read == h.inn.accepted
    ensures var turn := Drive(Other(x));
            var h := HalfOf(Step(Step(Step(p, turn).0, turn).0, turn).0, x);
            !h.inn.alive && |h.inn.read| == |h.inn.handed| && !h.me.dropped && !h.me.failed
  {
    var h := HalfOf(p, Other(x));
    assert h.out.handed <= h.out.accepted && h.out.read <= h.out.handed;
    hide Driven;
    assert HalfOf(Step(Step(Step(p, Drive(Other(x))).0, Drive(Other(x))).0, Drive(Other(x))).0, Other(x)) == Driven(Driven(Driven(h)));
    ThreeDrives(h);
    hide DirOk, HalfTight;
  }

  /** In every schedule: once the other side has closed or was dropped and everything it accepted was read, three turns of its
      driver at most, and an endpoint that has not failed reads the clean end of the stream ever after. */
  lemma CleanEndComes(es: seq<Event>, x: Side, n: nat)
    requires n > 0
    requires var h := HalfOf(Run(FRESH_PAIR, es), x);
             !h.me.dropped && !h.me.failed && (h.you.writeClosed || h.you.dropped) && h.inn.read == h.inn.accepted
    ensures var turn := Drive(Other(x));
            Step(Run(FRESH_PAIR, es + [turn] + [turn] + [turn]), PollRead(x, n)).1 == Ready(0)
  {
    hide Run, DirOk, HalfTight, Driven;
    FreshIsGood();
    var turn := Drive(Other(x));
    var p := Run(FRESH_PAIR, es);
    RunKeeps(FRESH_PAIR, es);
    RunTight(FRESH_PAIR, es, Other(x));
    var all := es + [turn] + [turn] + [turn];
    RunAppend(FRESH_PAIR, es, turn);
    RunAppend(FRESH_PAIR, es + [turn], turn);
    RunAppend(FRESH_PAIR, es + [turn] + [turn], turn);
    EndsAfterTurns(p, x);
    ReadsExactly(all, x, n);
  }

  /** When the other side's driver ends, a flush on this side succeeds if and only if nothing of ours was still under way then, and
      our own stream had not failed. */
  lemma FlushOnEndExactly(es: seq<Event>, x: Side)
    requires var h := HalfOf(Run(FRESH_PAIR, es), x);
             && !h.me.dropped && !h.me.writeClosed && h.inn.alive
             && !HalfOf(Step(Run(FRESH_PAIR, es), Drive(Other(x))).0, x).inn.alive
    ensures var h := HalfOf(Run(FRESH_PAIR, es), x);
            Step(Step(Run(FRESH_PAIR, es), Drive(Other(x))).0, PollFlush(x)).1 ==
            if h.out.handed == h.out.accepted && !h.out.driver.Placed? && !h.me.failed then Ready(0) else Failed
  {
    hide Run, DirOk, HalfTight, StepHalf;
    FreshIsGood();
    RunKeeps(FRESH_PAIR, es);
    RunTight(FRESH_PAIR, es, x);
    CarriedAll(HalfOf(Run(FRESH_PAIR, es), x));
    FlushAfterEnd(Run(FRESH_PAIR, es), x);
  }

  lemma FlushAfterEnd(p: Pair, x: Side)
    requires var h := HalfOf(p, x); !h.me.dropped && !h.me.writeClosed && h.inn.alive
    requires !HalfOf(Step(p, Drive(Other(x))).0, x).inn.alive
    ensures Step(Step(p, Drive(Other(x))).0, PollFlush(x)).1 ==
            if HalfOf(p, x).me.pending == 0 && !HalfOf(p, x).me.failed then Ready(0) else Failed
  {
    var h := HalfOf(p, Other(x));
    DriverEnds(h);
    var k := Driven(h);
    assert Step(p, Drive(Other(x))).0 == PairOf(k, Other(x));
    hide Driven;
    assert HalfOf(PairOf(k, Other(x)), x) == Half(k.you, k.me, k.inn, k.out);
  }

  lemma DriverEnds(h: Half)
    requires h.out.alive && !h.you.dropped && !Driven(h).out.alive
    ensures Driven(h).you == h.you.(drained := h.you.pending == 0, closed := true)
  {
  }

  /** A frame that finds the other endpoint dropped fails this one for good: the next write and flush fail, and so does a read once
      everything handed over was read. */
  lemma DroppedPeerFails(es: seq<Event>, x: Side, buf: Bytes, n: nat)
    requires n > 0
    requires var h := HalfOf(Run(FRESH_PAIR, es), x);
             !h.me.dropped && !h.me.writeClosed && h.you.dropped && h.out.alive && h.out.driver.Holding?
    ensures var p := Step(Run(FRESH_PAIR, es), Drive(x)).0;
            && Step(p, PollWrite(x, buf)).1 == Failed && Step(p, PollFlush(x)).1 == Failed
            && (HalfOf(p, x).inn.read == HalfOf(p, x).inn.handed ==> Step(p, PollRead(x, n)).1 == Failed)
  {
    var h := HalfOf(Run(FRESH_PAIR, es), x);
    var p := Step(Run(FRESH_PAIR, es), Drive(x)).0;
    assert HalfOf(p, x).me.failed && HalfOf(p, x).me.closed && !HalfOf(p, x).me.dropped && !HalfOf(p, x).me.writeClosed;
    RunAppend(FRESH_PAIR, es, Drive(x));
    hide Run, Driven;
    if HalfOf(p, x).inn.read == HalfOf(p, x).inn.handed { ReadsExactly(es + [Drive(x)], x, n); }
    hide Pull, ReadHalf;
  }

  lemma CarriedAll(h: Half)
    requires HalfOk(h) && HalfTight(h)
    ensures h.me.pending == 0 <==> h.out.handed == h.out.accepted && !h.out.driver.Placed?
  {
    var d := h.out;
    WritesShort(d.queue);
    NothingPending(d.queue);
    assert |d.accepted| == |d.handed| + |Inflight(d.driver)| + |Writes(d.queue)|;
    if Writes(d.queue) == [] { FlushesOnly(d.queue); }
    Nil(d.handed);
    hide Writes, WriteCount, Join, Unread, BeforeFlush, FlushCount;
  }

  // ----- nothing gets stuck

  /** How much there still is to do in a direction. */
  function Work(d: Dir): nat {
    5 * |d.queue| + (if d.driver.Idle? then 0 else if d.driver.Placed? then 1 else 3) + |d.frames| + (if d.cursor < |d.buffered| then 1 else 0)
  }

  /** A turn of the driver, when there is nothing to read, and some command to carry. */
  lemma DriveWorks(h: Half)
    requires HalfOk(h) && h.out.alive && !h.you.dropped && h.out.frames == [] && !(h.out.driver.Idle? && h.out.queue == [])
    ensures var k := Driven(h); k.out.alive && Work(k.out) < Work(h.out) && k.out.accepted == h.out.accepted
  {
    hide Writes, Join, BeforeFlush, FlushCount, WriteCount;
  }

  lemma ReadWorks(h: Half)
    requires HalfTight(h) && (h.inn.cursor < |h.inn.buffered| || h.inn.frames != [])
    ensures var d := ReadHalf(h, 65_536).0.inn; d.alive == h.inn.alive && Work(d) < Work(h.inn) && d.accepted == h.inn.accepted
  {
    var d := h.inn;
    if d.cursor >= |d.buffered| {
      var e := d.(buffered := d.frames[0].bytes, cursor := 0, frames := d.frames[1..]);
      assert Sized(d.frames[0].bytes);
      assert Pull(h.me, d, 65_536) == Pull(h.me, e, 65_536);
    }
  }

  lemma DoneIsRead(d: Dir)
    requires Carried(d) && d.queue == [] && d.driver.Idle? && d.frames == [] && d.cursor >= |d.buffered|
    ensures d.read == d.accepted
  {
    Nil(d.read);
  }

  ghost predicate Good(p: Pair) { PairOk(p) && HalfTight(HalfOf(p, A)) && Whole(p) }

  lemma GoodStep(p: Pair, e: Event)
    requires Good(p) && !e.Abort? && !e.DropEnd?
    ensures Good(Step(p, e).0)
  {
    hide DirOk, Tight, StepHalf, Whole, Shut;
    StepKeeps(p, e);
    StepTight(HalfOf(p, e.who), e);
    StepWhole(p, e);
  }

  /** The next thing to do for the stream out of `x`, and what it leaves to do. */
  lemma WorkStep(p: Pair, x: Side) returns (e: Event)
    requires Good(p) && HalfOf(p, x).out.alive && Work(HalfOf(p, x).out) > 0
    ensures e == Drive(x) || e == PollRead(Other(x), 65_536)
    ensures var d, k := HalfOf(p, x).out, HalfOf(Step(p, e).0, x).out;
            Good(Step(p, e).0) && k.alive && Work(k) < Work(d) && k.accepted == d.accepted
  {
    var h, g := HalfOf(p, x), HalfOf(p, Other(x));
    assert g.inn == h.out && HalfOk(h) && HalfOk(g) && HalfTight(g) && !g.me.dropped && !h.you.dropped;
    hide DirOk, Tight, Whole, Shut, Driven, Pull;
    if h.out.cursor < |h.out.buffered| || h.out.frames != [] {
      e := PollRead(Other(x), 65_536);
      ReadWorks(g);
    } else {
      e := Drive(x);
      DriveWorks(h);
    }
    GoodStep(p, e);
    hide Good, Work, HalfOk, HalfTight;
  }

  lemma DrainFrom(p: Pair, x: Side) returns (es: seq<Event>)
    requires Good(p) && HalfOf(p, x).out.alive
    ensures forall i :: 0 <= i < |es| ==> es[i] == Drive(x) || es[i] == PollRead(Other(x), 65_536)
    ensures var d := HalfOf(Run(p, es), x).out; d.read == d.accepted == HalfOf(p, x).out.accepted
    decreases Work(HalfOf(p, x).out)
  {
    var d := HalfOf(p, x).out;
    if Work(d) == 0 {
      es := [];
      assert Carried(d) && d.driver.Idle?;
      hide Carried, DirOk, HalfTight;
      DoneIsRead(d);
    } else {
      hide Good, Work, Step;
      var e := WorkStep(p, x);
      var rest := DrainFrom(Step(p, e).0, x);
      es := [e] + rest;
      Cons(e, rest);
      assert Run(p, es) == Run(Step(p, e).0, rest);
    }
  }

  /** After any schedule without abort or drop, while the driver lives, some turns of it and some reads of the other end bring
      everything that was accepted to the reader: no queue is ever stuck. */
  lemma EverythingCanArrive(es: seq<Event>, x: Side) returns (more: seq<Event>)
    requires Peaceful(es) && HalfOf(Run(FRESH_PAIR, es), x).out.alive
    ensures forall i :: 0 <= i < |more| ==> more[i] == Drive(x) || more[i] == PollRead(Other(x), 65_536)
    ensures var d := HalfOf(Run(Run(FRESH_PAIR, es), more), x).out;
            d.read == d.accepted == HalfOf(Run(FRESH_PAIR, es), x).out.accepted
  {
    hide Run, DirOk, HalfTight, Whole;
    FreshIsGood();
    RunKeeps(FRESH_PAIR, es);
    RunTight(FRESH_PAIR, es, A);
    RunWhole(FRESH_PAIR, es);
    more := DrainFrom(Run(FRESH_PAIR, es), x);
  }
}
