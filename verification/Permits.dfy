/** Stream permits: two shared counters changed one atomic operation at a time by any number of tasks. */
module Permits {
  import opened Prelude

  const MAX_CONCURRENT_STREAMS := 16
  const MAX_ACCEPT_STREAMS := 8

  /** Where one task stands between two atomic operations. `Permit` and `Guard` are the live objects; the others lie
      inside `reserve_connect`, `reserve_accept`, the permit's drop and the guard's release. */
  datatype Phase =
    | Free
    | ConnectRefused
    | AcceptRefused
    | AcceptCounted
    | BothRefused
    | AcceptLeft
    | Permit(accept: bool)
    | PermitDropped
    | Guard
    | Releasing

  /** `taken` and `given` count this task's increments and decrements of the stream counter. */
  datatype Task = Task(phase: Phase, taken: nat, given: nat)

  /** The counters are plain integers here, so that running below zero would show. */
  datatype World = World(streams: int, accepts: int, tasks: seq<Task>)

  datatype Event = ReserveConnect(i: nat) | ReserveAccept(i: nat) | Proceed(i: nat) | Transfer(i: nat) | Drop(i: nat) | Release(i: nat)

  function Start(n: nat): World { World(0, 0, seq(n, _ => Task(Free, 0, 0))) }

  function Become(w: World, i: nat, phase: Phase): World
    requires i < |w.tasks|
  {
    w.(tasks := w.tasks[i := w.tasks[i].(phase := phase)])
  }

  function TakeStream(w: World, i: nat, phase: Phase): World
    requires i < |w.tasks|
  {
    var t := w.tasks[i];
    w.(streams := w.streams + 1, tasks := w.tasks[i := Task(phase, t.taken + 1, t.given)])
  }

  function GiveStream(w: World, i: nat, phase: Phase): World
    requires i < |w.tasks|
  {
    var t := w.tasks[i];
    w.(streams := w.streams - 1, tasks := w.tasks[i := Task(phase, t.taken, t.given + 1)])
  }

  function Accepts(w: World, delta: int): World { w.(accepts := w.accepts + delta) }

  /** One atomic operation of task `i`; an event that does not fit the task's phase changes nothing. In particular a
      guard that is being released, or was, ignores every further release: the swap has been won already. */
  function Step(w: World, e: Event): World {
    if e.i >= |w.tasks| then w
    else
      var i := e.i;
      match (e, w.tasks[i].phase)
      case (ReserveConnect(_), Free) =>
        TakeStream(w, i, if w.streams >= MAX_CONCURRENT_STREAMS then ConnectRefused else Permit(false))
      case (ReserveAccept(_), Free) =>
        Accepts(Become(w, i, if w.accepts >= MAX_ACCEPT_STREAMS then AcceptRefused else AcceptCounted), 1)
      case (Proceed(_), ConnectRefused) => GiveStream(w, i, Free)
      case (Proceed(_), AcceptRefused) => Accepts(Become(w, i, Free), -1)
      case (Proceed(_), AcceptCounted) =>
        TakeStream(w, i, if w.streams >= MAX_CONCURRENT_STREAMS then BothRefused else Permit(true))
      case (Proceed(_), BothRefused) => GiveStream(w, i, AcceptLeft)
      case (Proceed(_), AcceptLeft) => Accepts(Become(w, i, Free), -1)
      case (Transfer(_), Permit(accept)) => if accept then Accepts(Become(w, i, Guard), -1) else Become(w, i, Guard)
      case (Drop(_), Permit(accept)) => GiveStream(w, i, if accept then PermitDropped else Free)
      case (Proceed(_), PermitDropped) => Accepts(Become(w, i, Free), -1)
      case (Release(_), Guard) => Become(w, i, Releasing)
      case (Proceed(_), Releasing) => GiveStream(w, i, Free)
      case _ => w
  }

  function Run(w: World, es: seq<Event>): World
    decreases |es|
  {
    if es == [] then w else Run(Step(w, es[0]), es[1..])
  }

  // ----- what a phase holds

  function Streams(p: Phase): nat {
    if p.ConnectRefused? || p.BothRefused? || p.Permit? || p.Guard? || p.Releasing? then 1 else 0
  }

  function AcceptsHeld(p: Phase): nat {
    if p.AcceptRefused? || p.AcceptCounted? || p.BothRefused? || p.AcceptLeft? || p.PermitDropped? || p == Permit(true) then 1 else 0
  }

  /** Live permits and guards not yet released. */
  function Live(p: Phase): nat { if p.Permit? || p.Guard? || p.Releasing? then 1 else 0 }

  function LiveAccepts(p: Phase): nat { if p == Permit(true) then 1 else 0 }

  /** Accepts past their first check. */
  function Admitted(p: Phase): nat { if p == Permit(true) || p.AcceptCounted? || p.BothRefused? then 1 else 0 }

  function Total(tasks: seq<Task>, weight: Phase -> nat): nat {
    if tasks == [] then 0 else weight(tasks[0].phase) + Total(tasks[1..], weight)
  }

  lemma {:induction false} TotalUpdate(tasks: seq<Task>, weight: Phase -> nat, i: nat, t: Task)
    requires i < |tasks|
    ensures Total(tasks[i := t], weight) == Total(tasks, weight) - weight(tasks[i].phase) + weight(t.phase)
    decreases |tasks|
  {
    if i == 0 {
      assert tasks[i := t][1..] == tasks[1..];
    } else {
      assert tasks[i := t][1..] == tasks[1..][i - 1 := t];
      TotalUpdate(tasks[1..], weight, i - 1, t);
    }
  }

  lemma {:induction false} TotalAtMost(tasks: seq<Task>, small: Phase -> nat, large: Phase -> nat)
    requires forall p :: small(p) <= large(p)
    ensures Total(tasks, small) <= Total(tasks, large)
    decreases |tasks|
  {
    if tasks != [] { TotalAtMost(tasks[1..], small, large); }
  }

  lemma {:induction false} TotalZero(tasks: seq<Task>, weight: Phase -> nat)
    requires forall i :: 0 <= i < |tasks| ==> weight(tasks[i].phase) == 0
    ensures Total(tasks, weight) == 0
    decreases |tasks|
  {
    if tasks != [] { TotalZero(tasks[1..], weight); }
  }

  // ----- the invariant

  ghost predicate Inv(w: World) {
    && w.streams == Total(w.tasks, Streams) && w.accepts == Total(w.tasks, AcceptsHeld)
    && Total(w.tasks, Live) <= MAX_CONCURRENT_STREAMS && Total(w.tasks, Admitted) <= MAX_ACCEPT_STREAMS
    && (forall i :: 0 <= i < |w.tasks| ==> w.tasks[i].taken == w.tasks[i].given + Streams(w.tasks[i].phase))
  }

  lemma StartInv(n: nat)
    ensures Inv(Start(n))
  {
    var w := Start(n);
    TotalZero(w.tasks, Streams);
    TotalZero(w.tasks, AcceptsHeld);
    TotalZero(w.tasks, Live);
    TotalZero(w.tasks, Admitted);
  }

  /** Whatever task `i` becomes, the four totals move by what its phases weigh. */
  lemma TotalsMove(tasks: seq<Task>, i: nat, t: Task)
    requires i < |tasks|
    ensures Total(tasks[i := t], Streams) == Total(tasks, Streams) - Streams(tasks[i].phase) + Streams(t.phase)
    ensures Total(tasks[i := t], AcceptsHeld) == Total(tasks, AcceptsHeld) - AcceptsHeld(tasks[i].phase) + AcceptsHeld(t.phase)
    ensures Total(tasks[i := t], Live) == Total(tasks, Live) - Live(tasks[i].phase) + Live(t.phase)
    ensures Total(tasks[i := t], Admitted) == Total(tasks, Admitted) - Admitted(tasks[i].phase) + Admitted(t.phase)
  {
    hide Total;
    TotalUpdate(tasks, Streams, i, t);
    TotalUpdate(tasks, AcceptsHeld, i, t);
    TotalUpdate(tasks, Live, i, t);
    TotalUpdate(tasks, Admitted, i, t);
  }

  /** An event moves one task, and the counters with it; whoever gets in found room. */
  lemma StepShape(w: World, e: Event)
    requires e.i < |w.tasks|
    ensures var s, p := Step(w, e), w.tasks[e.i];
            && |s.tasks| == |w.tasks| && s.tasks == w.tasks[e.i := s.tasks[e.i]]
            && var t := s.tasks[e.i];
            && s.streams - w.streams == Streams(t.phase) - Streams(p.phase)
            && s.accepts - w.accepts == AcceptsHeld(t.phase) - AcceptsHeld(p.phase)
            && t.taken - t.given - Streams(t.phase) == p.taken - p.given - Streams(p.phase)
            && (Live(t.phase) > Live(p.phase) ==> w.streams < MAX_CONCURRENT_STREAMS)
            && (Admitted(t.phase) > Admitted(p.phase) ==> w.accepts < MAX_ACCEPT_STREAMS)
  {
  }

  lemma StepKeeps(w: World, e: Event)
    requires Inv(w)
    ensures Inv(Step(w, e)) && |Step(w, e).tasks| == |w.tasks|
  {
    hide Total;
    TotalAtMost(w.tasks, Live, Streams);
    TotalAtMost(w.tasks, Admitted, AcceptsHeld);
    if e.i < |w.tasks| {
      StepShape(w, e);
      hide Step, Streams, AcceptsHeld, Live, Admitted;
      TotalsMove(w.tasks, e.i, Step(w, e).tasks[e.i]);
      LiveIsBit(w.tasks[e.i].phase, Step(w, e).tasks[e.i].phase);
    }
  }

  lemma LiveIsBit(p: Phase, q: Phase)
    ensures Live(q) <= Live(p) + 1 && Admitted(q) <= Admitted(p) + 1
  {
  }

  lemma {:induction false} RunKeeps(w: World, es: seq<Event>)
    requires Inv(w)
    ensures Inv(Run(w, es)) && |Run(w, es).tasks| == |w.tasks|
    decreases |es|
  {
    if es != [] {
      StepKeeps(w, es[0]);
      hide Step, Inv;
      RunKeeps(Step(w, es[0]), es[1..]);
    }
  }

  // ----- the theorems

  /** However many tasks interleave and however: at most sixteen permits and unreleased guards are live, at most eight of
      them accept permits, no counter ever runs below zero, and each counter is what the tasks hold. */
  lemma PermitsConserved(n: nat, es: seq<Event>)
    ensures var w := Run(Start(n), es);
            && Total(w.tasks, Live) <= MAX_CONCURRENT_STREAMS && Total(w.tasks, LiveAccepts) <= MAX_ACCEPT_STREAMS
            && w.streams >= 0 && w.accepts >= 0
            && w.streams == Total(w.tasks, Streams) && w.accepts == Total(w.tasks, AcceptsHeld)
  {
    StartInv(n);
    RunKeeps(Start(n), es);
    TotalAtMost(Run(Start(n), es).tasks, LiveAccepts, Admitted);
  }

  /** A task that is done has returned every reservation it took exactly once, and when all are done both counters are
      zero. */
  lemma EverythingComesBack(n: nat, es: seq<Event>)
    ensures var w := Run(Start(n), es);
            && (forall i :: 0 <= i < |w.tasks| && w.tasks[i].phase.Free? ==> w.tasks[i].taken == w.tasks[i].given)
            && ((forall i :: 0 <= i < |w.tasks| ==> w.tasks[i].phase.Free?) ==> w.streams == 0 && w.accepts == 0)
  {
    StartInv(n);
    RunKeeps(Start(n), es);
    var w := Run(Start(n), es);
    hide Run;
    if forall i :: 0 <= i < |w.tasks| ==> w.tasks[i].phase.Free? {
      TotalZero(w.tasks, Streams);
      TotalZero(w.tasks, AcceptsHeld);
    }
  }

  /** With no other task in the middle of a call, a connect is admitted exactly when fewer than sixteen are live. */
  lemma AdmittedExactly(w: World, i: nat)
    requires Inv(w) && i < |w.tasks| && w.tasks[i].phase.Free?
    requires forall j :: 0 <= j < |w.tasks| ==> w.tasks[j].phase.Free? || w.tasks[j].phase.Permit? || w.tasks[j].phase.Guard?
    ensures Step(w, ReserveConnect(i)).tasks[i].phase == Permit(false) <==> Total(w.tasks, Live) < 16
  {
    SameTotal(w.tasks);
    hide Total;
  }

  lemma {:induction false} SameTotal(tasks: seq<Task>)
    requires forall j :: 0 <= j < |tasks| ==> tasks[j].phase.Free? || tasks[j].phase.Permit? || tasks[j].phase.Guard?
    ensures Total(tasks, Live) == Total(tasks, Streams) && Total(tasks, LiveAccepts) == Total(tasks, AcceptsHeld)
    decreases |tasks|
  {
    if tasks != [] { SameTotal(tasks[1..]); }
  }

  /** And an accept exactly when moreover fewer than eight accepts are live; a refused call leaves everything as it was. */
  lemma AcceptAdmittedExactly(w: World, i: nat)
    requires Inv(w) && i < |w.tasks| && w.tasks[i].phase.Free?
    requires forall j :: 0 <= j < |w.tasks| ==> w.tasks[j].phase.Free? || w.tasks[j].phase.Permit? || w.tasks[j].phase.Guard?
    ensures var one := Step(w, ReserveAccept(i));
            var two := Step(one, Proceed(i));
            if Total(w.tasks, LiveAccepts) >= 8 then two == w
            else if Total(w.tasks, Live) >= 16 then
              var four := Step(Step(two, Proceed(i)), Proceed(i));
              four.streams == w.streams && four.accepts == w.accepts && four.tasks[i].phase == Free
            else two.tasks[i].phase == Permit(true)
  {
    SameTotal(w.tasks);
    hide Total;
    var two := Step(Step(w, ReserveAccept(i)), Proceed(i));
    if w.accepts >= MAX_ACCEPT_STREAMS { assert two.tasks == w.tasks; }
  }

  // ----- nothing is kept for good

  /** Transferring a permit leaves a guard that still holds the stream, and an accept no longer counts; giving up a permit or a
      guard, each in its own steps, returns what it held, and releasing again returns nothing more. */
  lemma ReturnsExactly(w: World, i: nat)
    requires i < |w.tasks|
    ensures var t := w.tasks[i];
            && (t.phase.Permit? ==>
                  var g, d := Step(w, Transfer(i)), Step(Step(w, Drop(i)), Proceed(i));
                  && g.tasks[i].phase == Guard && g.streams == w.streams && g.accepts == w.accepts - (if t.phase.accept then 1 else 0)
                  && d.tasks[i].phase == Free && d.streams == w.streams - 1 && d.accepts == w.accepts - (if t.phase.accept then 1 else 0))
            && (t.phase.Guard? ==>
                  var r := Step(Step(w, Release(i)), Proceed(i));
                  && r.tasks[i].phase == Free && r.streams == w.streams - 1 && r.accepts == w.accepts
                  && Step(Step(w, Release(i)), Release(i)) == Step(w, Release(i)) && Step(r, Release(i)) == r)
  {
  }

  /** What a task can do on its own to become free. */
  function Finishing(p: Phase, i: nat): seq<Event> {
    match p
    case Free => []
    case Permit(accept) => [Drop(i), Proceed(i)]
    case Guard => [Release(i), Proceed(i)]
    case AcceptCounted => [Proceed(i), Drop(i), Proceed(i), Proceed(i)]
    case _ => [Proceed(i), Proceed(i)]
  }

  lemma TwoSteps(w: World, a: Event, b: Event)
    ensures Run(w, [a, b]) == Step(Step(w, a), b)
  {
    hide Step;
    assert [a, b][1..] == [b] && [b][1..] == [];
    assert Run(Step(w, a), [b]) == Run(Step(Step(w, a), b), []);
  }

  lemma FourSteps(w: World, a: Event, b: Event, c: Event, d: Event)
    ensures Run(w, [a, b, c, d]) == Step(Step(Step(Step(w, a), b), c), d)
  {
    hide Step;
    assert [a, b, c, d][1..] == [b, c, d] && [b, c, d][1..] == [c, d];
    assert Run(Step(w, a), [b, c, d]) == Run(Step(Step(w, a), b), [c, d]);
    TwoSteps(Step(Step(w, a), b), c, d);
  }

  lemma Finishes(w: World, i: nat)
    requires i < |w.tasks|
    ensures var t := Run(w, Finishing(w.tasks[i].phase, i)); |t.tasks| == |w.tasks| && t.tasks[i].phase == Free && t.tasks == w.tasks[i := t.tasks[i]]
  {
    hide Run;
    match w.tasks[i].phase {
      case Free => NoSteps(w);
      case Permit(_) => TwoSteps(w, Drop(i), Proceed(i));
      case Guard => TwoSteps(w, Release(i), Proceed(i));
      case AcceptCounted => FourSteps(w, Proceed(i), Drop(i), Proceed(i), Proceed(i));
      case _ => TwoSteps(w, Proceed(i), Proceed(i));
    }
  }

  lemma NoSteps(w: World)
    ensures Run(w, []) == w
  {
  }

  lemma {:induction false} RunAppend(w: World, es: seq<Event>, more: seq<Event>)
    ensures Run(w, es + more) == Run(Run(w, es), more)
    decreases |es|
  {
    hide Step;
    if es == [] {
      Nil(more);
    } else {
      Tail(es, more);
      RunAppend(Step(w, es[0]), es[1..], more);
    }
  }

  lemma {:induction false} FinishFrom(w: World, k: nat) returns (es: seq<Event>)
    requires k <= |w.tasks| && forall i :: 0 <= i < k ==> w.tasks[i].phase.Free?
    ensures var t := Run(w, es); |t.tasks| == |w.tasks| && forall i :: 0 <= i < |t.tasks| ==> t.tasks[i].phase.Free?
    decreases |w.tasks| - k
  {
    if k == |w.tasks| {
      es := [];
    } else {
      hide Step;
      var first := Finishing(w.tasks[k].phase, k);
      Finishes(w, k);
      hide Run, Finishing;
      var rest := FinishFrom(Run(w, first), k + 1);
      RunAppend(w, first, rest);
      es := first + rest;
    }
  }

  /** From wherever the tasks are, they can all finish, and then both counters are zero: no reservation is ever lost. */
  lemma EverythingCanComeBack(n: nat, es: seq<Event>) returns (more: seq<Event>)
    ensures var w := Run(Start(n), es + more);
            w.streams == 0 && w.accepts == 0 && forall i :: 0 <= i < |w.tasks| ==> w.tasks[i].phase.Free?
  {
    more := FinishFrom(Run(Start(n), es), 0);
    hide Step;
    RunAppend(Start(n), es, more);
    EverythingComesBack(n, es + more);
  }

  // ----- the objects

  /** The two counters, shared by reference. */
  class Counters {
    var streams: nat
    var accepts: nat

    constructor ()
      ensures streams == 0 && accepts == 0
    {
      streams, accepts := 0, 0;
    }
  }

  class StreamCountGuard {
    const counters: Counters
    var decremented: bool

    constructor (c: Counters)
      ensures counters == c && !decremented
    {
      counters, decremented := c, false;
    }

    /** Also what dropping the guard does: only the first call returns the stream. */
    method Release()
      requires !decremented ==> counters.streams > 0
      modifies this`decremented, counters`streams
      ensures decremented
      ensures counters.streams == if old(decremented) then old(counters.streams) else old(counters.streams) - 1
    {
      var was := decremented;
      decremented := true;
      if !was { counters.streams := counters.streams - 1; }
    }
  }

  class StreamPermit {
    const counters: Counters
    const accept: bool
    var transferred: bool

    constructor (c: Counters, accept: bool)
      ensures counters == c && this.accept == accept && !transferred
    {
      counters, this.accept, transferred := c, accept, false;
    }

    method Drop()
      requires !transferred ==> counters.streams > 0 && (accept ==> counters.accepts > 0)
      modifies counters
      ensures counters.streams == if transferred then old(counters.streams) else old(counters.streams) - 1
      ensures counters.accepts == if transferred || !accept then old(counters.accepts) else old(counters.accepts) - 1
    {
      if !transferred {
        counters.streams := counters.streams - 1;
        if accept { counters.accepts := counters.accepts - 1; }
      }
    }

    /** The guard takes the stream over; an accept stops counting as one. */
    method Transfer() returns (guard: StreamCountGuard)
      requires !transferred && (accept ==> counters.accepts > 0)
      modifies this`transferred, counters`accepts
      ensures transferred && fresh(guard) && guard.counters == counters && !guard.decremented
      ensures counters.accepts == if accept then old(counters.accepts) - 1 else old(counters.accepts)
    {
      transferred := true;
      if accept { counters.accepts := counters.accepts - 1; }
      guard := new StreamCountGuard(counters);
    }
  }

  method TryConnect(c: Counters) returns (permit: Option<StreamPermit>)
    modifies c
    ensures permit.Some? <==> old(c.streams) < MAX_CONCURRENT_STREAMS
    ensures permit.Some? ==> fresh(permit.value) && permit.value.counters == c && !permit.value.accept && !permit.value.transferred
    ensures c.streams == (if permit.Some? then old(c.streams) + 1 else old(c.streams)) && c.accepts == old(c.accepts)
  {
    var current := c.streams;
    c.streams := c.streams + 1;
    if current >= MAX_CONCURRENT_STREAMS {
      c.streams := c.streams - 1;
      return None;
    }
    var p := new StreamPermit(c, false);
    return Some(p);
  }

  method TryAccept(c: Counters) returns (permit: Option<StreamPermit>)
    modifies c
    ensures permit.Some? <==> old(c.accepts) < MAX_ACCEPT_STREAMS && old(c.streams) < MAX_CONCURRENT_STREAMS
    ensures permit.Some? ==> fresh(permit.value) && permit.value.counters == c && permit.value.accept && !permit.value.transferred
    ensures c.streams == if permit.Some? then old(c.streams) + 1 else old(c.streams)
    ensures c.accepts == if permit.Some? then old(c.accepts) + 1 else old(c.accepts)
  {
    var accepts := c.accepts;
    c.accepts := c.accepts + 1;
    if accepts >= MAX_ACCEPT_STREAMS {
      c.accepts := c.accepts - 1;
      return None;
    }
    var total := c.streams;
    c.streams := c.streams + 1;
    if total >= MAX_CONCURRENT_STREAMS {
      c.streams := c.streams - 1;
      c.accepts := c.accepts - 1;
      return None;
    }
    var p := new StreamPermit(c, true);
    return Some(p);
  }
}
