/** The same two clients at the granularity of their locks: a received init is tested for a crossing, and written after a
    wait, so that an opening of our own can finish in between. */
module Locks {
  import opened Prelude
  import opened Crossing
  import opened Races

  /** `testA`/`testB` hold what a side's test said about the init in front of its channel, until it is taken. */
  datatype Split = Split(w: World, testA: Option<bool>, testB: Option<bool>)

  datatype Act = Plain(e: Event) | Test(who: Side) | Take(who: Side)

  function Tested(s: Split, x: Side): Option<bool> { if x == A then s.testA else s.testB }

  function WithTest(s: Split, x: Side, t: Option<bool>): Split { if x == A then s.(testA := t) else s.(testB := t) }

  predicate InitInFront(w: World, x: Side) { Into(w, x) != [] && Into(w, x)[0].Init? }

  /** The test: both have opened, ours is unanswered, nothing is set aside, and ours stands. */
  predicate Decides(w: World, keys: Keys, x: Side) {
    var p := PeerOf(w, x);
    p.ownInit.Some? && p.session.Some? && p.lost.None? && OursStands(keys, x)
  }

  /** The write, as the test decided. */
  function Applied(p: Peer, s: Session, aside: bool): Peer {
    if aside then p.(lost := Some(Accepted(s))) else p.(ownInit := None, lost := None, session := Some(Accepted(s)))
  }

  function Taken(w: World, x: Side, aside: bool): World
    requires InitInFront(w, x)
  {
    var ch := Into(w, x);
    WithInto(WithPeer(w, x, Applied(PeerOf(w, x), ch[0].session, aside)), x, ch[1..])
  }

  /** One act; one that is not enabled changes nothing. Letters wait while an init is being taken. */
  function Acted(s: Split, keys: Keys, a: Act): Split {
    match a
    case Plain(e) =>
      if e.Deliver? && (InitInFront(s.w, e.who) || Tested(s, e.who).Some?) then s else s.(w := Step(s.w, keys, e))
    case Test(x) => if InitInFront(s.w, x) && Tested(s, x).None? then WithTest(s, x, Some(Decides(s.w, keys, x))) else s
    case Take(x) =>
      if InitInFront(s.w, x) && Tested(s, x).Some?
      then WithTest(s.(w := Taken(s.w, x, Tested(s, x).value)), x, None) else s
  }

  function ActedAll(s: Split, keys: Keys, acts: seq<Act>): Split
    decreases |acts|
  {
    if acts == [] then s else ActedAll(Acted(s, keys, acts[0]), keys, acts[1..])
  }

  const BEGIN := Split(START, None, None)

  // ----- tests that still say the truth

  /** A pending test says of its init what it would say now. */
  ghost predicate TestOk(s: Split, keys: Keys, x: Side) {
    Tested(s, x).Some? ==> InitInFront(s.w, x) && Tested(s, x).value == Decides(s.w, keys, x)
  }

  ghost predicate TestsOk(s: Split, keys: Keys) { TestOk(s, keys, A) && TestOk(s, keys, B) }

  ghost predicate SplitOk(s: Split, keys: Keys) { Inv(s.w, keys) && TestsOk(s, keys) }

  /** An install that finds no session, and no init already tested that it would have stood against. */
  predicate Clean(s: Split, keys: Keys, a: Act) {
    a.Plain? && a.e.Install? && Asked(s.w, a.e.who) > 0 ==>
      PeerOf(s.w, a.e.who).session.None? && !(Tested(s, a.e.who).Some? && OursStands(keys, a.e.who))
  }

  predicate AllClean(s: Split, keys: Keys, acts: seq<Act>)
    decreases |acts|
  {
    acts != [] ==> Clean(s, keys, acts[0]) && AllClean(Acted(s, keys, acts[0]), keys, acts[1..])
  }

  /** Taking an init that was tested truly is delivering it. */
  lemma TakeIsDeliver(w: World, keys: Keys, x: Side)
    requires InitInFront(w, x)
    ensures Taken(w, x, Decides(w, keys, x)) == Step(w, keys, Deliver(x))
  {
    hide OursStands;
  }

  /** What a step leaves of a side it is not a delivery to, or an install of. */
  lemma TestStays(w: World, keys: Keys, e: Event, x: Side)
    requires InitInFront(w, x) && !(e.Deliver? && e.who == x) && !(e.Install? && e.who == x && Asked(w, x) > 0)
    ensures var n := Step(w, keys, e); InitInFront(n, x) && Decides(n, keys, x) == Decides(w, keys, x)
  {
    hide OursStands, Receive;
  }

  lemma InstallTest(w: World, keys: Keys, x: Side)
    requires InitInFront(w, x) && Asked(w, x) > 0
    ensures var n := Step(w, keys, Install(x)); InitInFront(n, x) && Decides(n, keys, x) == OursStands(keys, x)
  {
    hide OursStands;
  }

  lemma PlainTests(s: Split, keys: Keys, e: Event, x: Side)
    requires TestOk(s, keys, x)
    requires e.Install? && e.who == x && Asked(s.w, x) > 0 && Tested(s, x).Some? ==> Tested(s, x).value == OursStands(keys, x)
    ensures TestOk(Acted(s, keys, Plain(e)), keys, x)
  {
    hide Step, Decides, OursStands;
    if Tested(s, x).Some? {
      if e.Install? && e.who == x && Asked(s.w, x) > 0 { InstallTest(s.w, keys, x); }
      else if !(e.Deliver? && e.who == x) { TestStays(s.w, keys, e, x); }
    }
  }

  lemma TakeTests(s: Split, keys: Keys, a: Act, x: Side)
    requires TestOk(s, keys, x) && !a.Plain?
    ensures TestOk(Acted(s, keys, a), keys, x)
  {
    hide OursStands;
  }

  /** Only sends, deliveries, tests and takes. */
  predicate Calm(a: Act) { a.Plain? ==> a.e.Send? || a.e.Deliver? }

  predicate AllCalm(acts: seq<Act>) { forall i :: 0 <= i < |acts| ==> Calm(acts[i]) }

  lemma CalmTests(s: Split, keys: Keys, a: Act)
    requires TestsOk(s, keys) && Calm(a)
    ensures TestsOk(Acted(s, keys, a), keys)
  {
    hide TestOk, Acted;
    if a.Plain? {
      PlainTests(s, keys, a.e, A);
      PlainTests(s, keys, a.e, B);
    } else {
      TakeTests(s, keys, a, A);
      TakeTests(s, keys, a, B);
    }
  }

  // ----- clean acts keep the invariant

  lemma CleanInstall(s: Split, keys: Keys, x: Side)
    requires TestOk(s, keys, x) && Asked(s.w, x) > 0 && Clean(s, keys, Plain(Install(x)))
    ensures Tested(s, x).Some? ==> Tested(s, x).value == OursStands(keys, x)
  {
    hide OursStands;
  }

  lemma CleanKeeps(s: Split, keys: Keys, a: Act)
    requires keys.a != keys.b && SplitOk(s, keys) && Clean(s, keys, a)
    ensures SplitOk(Acted(s, keys, a), keys)
  {
    hide Inv, OursStands;
    match a {
      case Plain(e) =>
        StepKeepsClean(s, keys, e);
        if e.Install? && Asked(s.w, e.who) > 0 { CleanInstall(s, keys, e.who); }
        hide TestOk, Step;
        PlainTests(s, keys, e, A);
        PlainTests(s, keys, e, B);
      case Test(x) =>
        TakeTests(s, keys, a, A);
        TakeTests(s, keys, a, B);
      case Take(x) =>
        if InitInFront(s.w, x) && Tested(s, x).Some? {
          TakeIsDeliver(s.w, keys, x);
          StepKeeps(s.w, keys, Deliver(x));
        }
        TakeTests(s, keys, a, A);
        TakeTests(s, keys, a, B);
        hide Taken, Step, Decides;
    }
  }

  lemma StepKeepsClean(s: Split, keys: Keys, e: Event)
    requires keys.a != keys.b && Inv(s.w, keys) && Clean(s, keys, Plain(e))
    ensures Inv(Step(s.w, keys, e), keys)
  {
    hide Inv, OursStands;
    StepKeeps(s.w, keys, e);
  }

  ghost predicate CalmlySafe(s: Split, keys: Keys) { forall acts :: AllCalm(acts) ==> !ActedAll(s, keys, acts).w.unread }

  lemma {:induction false} CalmKeeps(s: Split, keys: Keys, acts: seq<Act>)
    requires keys.a != keys.b && SplitOk(s, keys) && AllCalm(acts)
    ensures SplitOk(ActedAll(s, keys, acts), keys)
    decreases |acts|
  {
    if acts != [] {
      assert Calm(acts[0]) && Clean(s, keys, acts[0]);
      assert forall i :: 0 <= i < |acts[1..]| ==> acts[1..][i] == acts[i + 1];
      hide SplitOk, Acted;
      CleanKeeps(s, keys, acts[0]);
      CalmKeeps(Acted(s, keys, acts[0]), keys, acts[1..]);
    }
  }

  lemma OkIsSafe(s: Split, keys: Keys)
    requires keys.a != keys.b && SplitOk(s, keys)
    ensures CalmlySafe(s, keys)
  {
    hide ActedAll, AllCalm;
    forall acts | AllCalm(acts) ensures !ActedAll(s, keys, acts).w.unread { CalmKeeps(s, keys, acts); }
  }

  // ----- every calm run of whole deliveries is one of tests and takes

  lemma ActedCons(s: Split, keys: Keys, a: Act, acts: seq<Act>)
    ensures ActedAll(s, keys, [a] + acts) == ActedAll(Acted(s, keys, a), keys, acts)
  {
    Cons(a, acts);
  }

  /** The acts that make up one quiet event. */
  function Pieces(w: World, e: Event): seq<Act> {
    if e.Deliver? && InitInFront(w, e.who) then [Test(e.who), Take(e.who)] else [Plain(e)]
  }

  lemma PiecesDo(s: Split, keys: Keys, e: Event)
    requires TestsOk(s, keys) && (e.Send? || e.Deliver?)
    ensures var t := ActedAll(s, keys, Pieces(s.w, e)); t.w == Step(s.w, keys, e) && TestsOk(t, keys)
  {
    var x := e.who;
    if e.Deliver? && InitInFront(s.w, x) {
      var tested := Acted(s, keys, Test(x));
      var t := Acted(tested, keys, Take(x));
      assert tested.w == s.w && Tested(tested, x) == Some(Decides(s.w, keys, x));
      TakeIsDeliver(s.w, keys, x);
      assert t.w == Step(s.w, keys, e);
      CalmTests(s, keys, Test(x));
      CalmTests(tested, keys, Take(x));
      assert [Test(x), Take(x)] == [Test(x)] + ([Take(x)] + []);
      ActedCons(s, keys, Test(x), [Take(x)] + []);
      ActedCons(tested, keys, Take(x), []);
      hide Acted;
    } else {
      var t := Acted(s, keys, Plain(e));
      assert e.Deliver? ==> Tested(s, x).None?;
      assert t.w == Step(s.w, keys, e);
      CalmTests(s, keys, Plain(e));
      assert [Plain(e)] == [Plain(e)] + [];
      ActedCons(s, keys, Plain(e), []);
      hide Acted;
    }
  }

  lemma {:induction false} InPieces(s: Split, keys: Keys, es: seq<Event>) returns (acts: seq<Act>)
    requires TestsOk(s, keys) && Quiet(es)
    ensures AllCalm(acts) && ActedAll(s, keys, acts).w == Run(s.w, keys, es)
    decreases |es|
  {
    if es == [] {
      acts := [];
    } else {
      var e := es[0];
      assert forall i :: 0 <= i < |es[1..]| ==> es[1..][i] == es[i + 1];
      hide TestsOk, Step, Acted;
      PiecesDo(s, keys, e);
      var first := Pieces(s.w, e);
      var t := ActedAll(s, keys, first);
      var rest := InPieces(t, keys, es[1..]);
      ActedAppend(s, keys, first, rest);
      acts := first + rest;
    }
  }

  lemma {:induction false} ActedAppend(s: Split, keys: Keys, a: seq<Act>, b: seq<Act>)
    ensures ActedAll(s, keys, a + b) == ActedAll(ActedAll(s, keys, a), keys, b)
    decreases |a|
  {
    hide Acted;
    if a == [] {
      Nil(b);
    } else {
      Tail(a, b);
      ActedAppend(Acted(s, keys, a[0]), keys, a[1..], b);
    }
  }

  // ----- what is not clean can lose a letter

  /** Over a session: a pending test was of a crossing, and still is one afterwards. */
  lemma LateTest(w: World, keys: Keys, x: Side)
    requires keys.a != keys.b && Inv(w, keys) && PeerOf(w, x).session.Some? && InitInFront(w, x)
    ensures Decides(w, keys, x) == OursStands(keys, x)
  {
    Seen(w, keys, x);
    var v := ViewOf(w, keys, x);
    assert MeOk(v, x) && InnOk(v, x);
    hide Less, OursStands, IndexesOk;
  }

  lemma LateSplit(s: Split, keys: Keys, x: Side) returns (acts: seq<Act>)
    requires keys.a != keys.b && SplitOk(s, keys) && Asked(s.w, x) > 0 && PeerOf(s.w, x).session.Some?
    ensures AllCalm(acts) && ActedAll(Acted(s, keys, Plain(Install(x))), keys, acts).w.unread
  {
    if Tested(s, x).Some? { LateTest(s.w, keys, x); }
    PlainTests(s, keys, Install(x), A);
    PlainTests(s, keys, Install(x), B);
    hide Inv, TestOk;
    var more := LateLoses(s.w, keys, x);
    hide Step, Run;
    acts := InPieces(Acted(s, keys, Plain(Install(x))), keys, more);
  }

  /** A side that has opened nothing, with the other's init in front: nothing is on its way to the other, whose own init is
      unanswered. */
  lemma Untouched(w: World, keys: Keys, x: Side)
    requires keys.a != keys.b && Inv(w, keys) && PeerOf(w, x).session.None? && InitInFront(w, x)
    ensures var p, q := PeerOf(w, x), PeerOf(w, Other(x));
            && p.openings == 0 && Into(w, Other(x)) == [] && Into(w, x)[0].session == First(Other(x))
            && q.ownInit.Some? && q.session.Some? && q.lost.None?
            && (forall k :: 0 < k < |Into(w, x)| ==> Into(w, x)[k].Letter?)
  {
    Seen(w, keys, x);
    var v := ViewOf(w, keys, x);
    if v.out != [] { SpokeLater(v, x); }
    assert MeOk(v, x) && MeOk(Mirror(v), Other(x)) && InnOk(v, x);
    hide Less, OursStands, IndexesOk;
  }

  /** Between the test and the write, with the smaller key: ours is installed and overwritten, and the other side takes it. */
  lemma HastySplit(s: Split, keys: Keys, x: Side) returns (acts: seq<Act>)
    requires keys.a != keys.b && SplitOk(s, keys) && Asked(s.w, x) > 0 && PeerOf(s.w, x).session.None?
    requires Tested(s, x).Some? && OursStands(keys, x)
    ensures AllCalm(acts) && ActedAll(Acted(s, keys, Plain(Install(x))), keys, acts).w.unread
  {
    var y := Other(x);
    Untouched(s.w, keys, x);
    LessTrichotomy(keys.a, keys.b);
    assert !OursStands(keys, y);
    assert Tested(s, x) == Some(false) && Tested(s, y).None?;
    hide Inv, Less, OursStands;
    var installed := Acted(s, keys, Plain(Install(x)));
    var t := Acted(installed, keys, Take(x));
    assert Into(t.w, y) == [Init(First(x))] && PeerOf(t.w, y) == PeerOf(s.w, y);
    assert PeerOf(t.w, x) == Peer(Some(Accepted(First(y))), None, None, 1) && Into(t.w, x) == Into(s.w, x)[1..];
    assert TestsOk(t, keys);
    var more := HastyLoses(t.w, keys, x);
    hide Acted, Run;
    acts := InPieces(t, keys, more);
    ActedCons(installed, keys, Take(x), acts);
    acts := [Take(x)] + acts;
  }

  lemma HastyLoses(w: World, keys: Keys, x: Side) returns (more: seq<Event>)
    requires var y := Other(x);
             && Into(w, y) == [Init(First(x))] && PeerOf(w, x) == Peer(Some(Accepted(First(y))), None, None, 1)
             && (forall k :: 0 <= k < |Into(w, x)| ==> Into(w, x)[k].Letter?)
    requires !OursStands(keys, Other(x))
    ensures Quiet(more) && Run(w, keys, more).unread
  {
    var y := Other(x);
    var took := Step(w, keys, Deliver(y));
    assert PeerOf(took, y).session == Some(Accepted(First(x))) && PeerOf(took, x) == PeerOf(w, x) && Into(took, x) == Into(w, x);
    var sent := Step(took, keys, Send(y));
    assert Into(sent, x) == Into(w, x) + [Letter(First(x), 0)] && PeerOf(sent, x) == PeerOf(w, x);
    hide Step, OursStands, Run;
    var n := |Into(w, x)| + 1;
    GoesUnread(sent, keys, x, First(x));
    DeliversQuiet(x, n);
    RunCons(took, keys, Send(y), Delivers(x, n));
    RunCons(w, keys, Deliver(y), [Send(y)] + Delivers(x, n));
    more := [Deliver(y)] + ([Send(y)] + Delivers(x, n));
  }

  // ----- exactly the clean runs are safe

  lemma InstallCleanExactly(s: Split, keys: Keys, x: Side)
    requires keys.a != keys.b && SplitOk(s, keys) && Asked(s.w, x) > 0
    ensures CalmlySafe(Acted(s, keys, Plain(Install(x))), keys) <==> Clean(s, keys, Plain(Install(x)))
  {
    hide SplitOk, ActedAll, Acted, AllCalm, OursStands;
    if Clean(s, keys, Plain(Install(x))) {
      CleanKeeps(s, keys, Plain(Install(x)));
      OkIsSafe(Acted(s, keys, Plain(Install(x))), keys);
    } else if PeerOf(s.w, x).session.Some? {
      var acts := LateSplit(s, keys, x);
    } else {
      var acts := HastySplit(s, keys, x);
    }
  }

  ghost predicate AlwaysCalmlySafe(s: Split, keys: Keys, acts: seq<Act>)
    decreases |acts|
  {
    CalmlySafe(s, keys) && (acts != [] ==> AlwaysCalmlySafe(Acted(s, keys, acts[0]), keys, acts[1..]))
  }

  lemma {:induction false} SafeExactlyFrom(s: Split, keys: Keys, acts: seq<Act>)
    requires keys.a != keys.b && SplitOk(s, keys)
    ensures AlwaysCalmlySafe(s, keys, acts) <==> AllClean(s, keys, acts)
    decreases |acts|
  {
    OkIsSafe(s, keys);
    if acts != [] {
      var n := Acted(s, keys, acts[0]);
      if Clean(s, keys, acts[0]) {
        hide Acted, CalmlySafe, SplitOk;
        CleanKeeps(s, keys, acts[0]);
        SafeExactlyFrom(n, keys, acts[1..]);
      } else {
        hide SplitOk, CalmlySafe, Acted;
        InstallCleanExactly(s, keys, acts[0].e.who);
      }
    }
  }

  /** Over every run of asks, installs, sends, deliveries, tests and takes: every moment of it is safe, whatever the clients
      write and however it is delivered from there, if and only if every install found no session, and none fell between the
      test and the write of an init it should have stood against. */
  lemma LocksSafeExactly(keys: Keys, acts: seq<Act>)
    requires keys.a != keys.b
    ensures AlwaysCalmlySafe(BEGIN, keys, acts) <==> AllClean(BEGIN, keys, acts)
  {
    SafeExactlyFrom(BEGIN, keys, acts);
  }

  lemma FourActs(s: Split, keys: Keys, a: Act, b: Act, c: Act, d: Act)
    ensures ActedAll(s, keys, [a, b, c, d]) == Acted(Acted(Acted(Acted(s, keys, a), keys, b), keys, c), keys, d)
  {
    hide Acted;
    var s1 := Acted(s, keys, a);
    var s2 := Acted(s1, keys, b);
    var s3 := Acted(s2, keys, c);
    ActedCons(s3, keys, d, []);
    ActedCons(s2, keys, c, [d] + []);
    ActedCons(s1, keys, b, [c] + ([d] + []));
    ActedCons(s, keys, a, [b] + ([c] + ([d] + [])));
    assert [a, b, c, d] == [a] + ([b] + ([c] + ([d] + [])));
  }

  lemma HastyStart(keys: Keys)
    requires keys.a != keys.b
    ensures var s := Acted(Acted(Acted(Acted(BEGIN, keys, Plain(Ask(A))), keys, Plain(Ask(B))), keys, Plain(Install(B))), keys, Test(A));
            SplitOk(s, keys) && Tested(s, A).Some? && Asked(s.w, A) > 0 && PeerOf(s.w, A).session.None?
  {
    hide OursStands, Inv;
    var s1 := Acted(BEGIN, keys, Plain(Ask(A)));
    var s2 := Acted(s1, keys, Plain(Ask(B)));
    var s3 := Acted(s2, keys, Plain(Install(B)));
    assert s3.w.toA == [Init(First(B))];
    assert SplitOk(BEGIN, keys) by { SafeStart(keys); }
    CleanKeeps(BEGIN, keys, Plain(Ask(A)));
    CleanKeeps(s1, keys, Plain(Ask(B)));
    CleanKeeps(s2, keys, Plain(Install(B)));
    CleanKeeps(s3, keys, Test(A));
    hide SplitOk;
  }

  lemma SafeStart(keys: Keys)
    ensures Inv(BEGIN.w, keys)
  {
  }

  /** Such an install, of the smaller key: A tests B's init, installs its own, and writes B's over it. */
  lemma HastyInstallLoses(keys: Keys) returns (acts: seq<Act>)
    requires Less(keys.a, keys.b)
    ensures AllCalm(acts)
    ensures var s := ActedAll(BEGIN, keys, [Plain(Ask(A)), Plain(Ask(B)), Plain(Install(B)), Test(A)]);
            ActedAll(Acted(s, keys, Plain(Install(A))), keys, acts).w.unread
  {
    LessTrichotomy(keys.a, keys.b);
    assert OursStands(keys, A);
    hide SplitOk, Acted, ActedAll, OursStands;
    HastyStart(keys);
    FourActs(BEGIN, keys, Plain(Ask(A)), Plain(Ask(B)), Plain(Install(B)), Test(A));
    acts := HastySplit(ActedAll(BEGIN, keys, [Plain(Ask(A)), Plain(Ask(B)), Plain(Install(B)), Test(A)]), keys, A);
  }
}
