/** What the wait for a bundle can do: an opening that finishes late overwrites the session that was taken or opened
    meanwhile. Exactly the punctual runs are safe. */
module Races {
  import opened Prelude
  import opened Crossing

  /** Only sends and deliveries. */
  predicate Quiet(es: seq<Event>) { forall i :: 0 <= i < |es| ==> es[i].Send? || es[i].Deliver? }

  /** However the clients write and the channels deliver from here, every letter opens. */
  ghost predicate Safe(w: World, keys: Keys) { forall more :: Quiet(more) ==> !Run(w, keys, more).unread }

  // ----- a run that goes wrong

  /** A asks for a bundle; B opens and A takes B's session; A's opening finishes and replaces it. B, of the smaller key,
      lets its own stand. The channels are empty, the two sides send on different sessions, and A cannot open what B sends
      next. */
  lemma LateInstallSplits(keys: Keys)
    requires Less(keys.b, keys.a)
    ensures var w := Run(START, keys, [Ask(A), Ask(B), Install(B), Deliver(A), Install(A), Deliver(B)]);
            && w.toA == [] && w.toB == [] && !w.unread
            && w.a.session.Some? && w.b.session.Some? && w.a.session.value.session == First(A) && w.b.session.value.session == First(B)
            && Run(w, keys, [Send(B), Deliver(A)]).unread
  {
    LessTrichotomy(keys.a, keys.b);
    hide Less;
    var es := [Ask(A), Ask(B), Install(B), Deliver(A), Install(A), Deliver(B)];
    var w3 := Step(Step(Step(START, keys, Ask(A)), keys, Ask(B)), keys, Install(B));
    assert w3.toA == [Init(First(B))] && w3.toB == [] && w3.askA == 1;
    var w4 := Step(w3, keys, Deliver(A));
    assert w4.toA == [] && w4.a.session == Some(Accepted(First(B))) && w4.a.openings == 0;
    var w5 := Step(w4, keys, Install(A));
    assert w5.toB == [Init(First(A))] && w5.a.lost.None?;
    var w6 := Step(w5, keys, Deliver(B));
    assert w6.toB == [] && w6.b.session == w5.b.session;
    SixSteps(START, keys, es);
    var w7 := Step(w6, keys, Send(B));
    assert w7.toA == [Letter(First(B), 1)];
    assert Run(w6, keys, [Send(B), Deliver(A)]) == Step(w7, keys, Deliver(A)) by {
      RunCons(w6, keys, Send(B), [Deliver(A)]);
      RunCons(w7, keys, Deliver(A), []);
      assert [Send(B), Deliver(A)] == [Send(B)] + [Deliver(A)] && [Deliver(A)] == [Deliver(A)] + [];
    }
  }

  lemma RunCons(w: World, keys: Keys, e: Event, es: seq<Event>)
    ensures Run(w, keys, [e] + es) == Run(Step(w, keys, e), keys, es)
  {
    Cons(e, es);
  }

  lemma SixSteps(w: World, keys: Keys, es: seq<Event>)
    requires |es| == 6
    ensures Run(w, keys, es) == Step(Step(Step(Step(Step(Step(w, keys, es[0]), keys, es[1]), keys, es[2]), keys, es[3]), keys, es[4]), keys, es[5])
  {
    hide Step, Run;
    var s5 := [es[5]] + [];
    var s4 := [es[4]] + s5;
    var s3 := [es[3]] + s4;
    var s2 := [es[2]] + s3;
    var s1 := [es[1]] + s2;
    assert es == [es[0]] + s1;
    var w1 := Step(w, keys, es[0]);
    var w2 := Step(w1, keys, es[1]);
    var w3 := Step(w2, keys, es[2]);
    var w4 := Step(w3, keys, es[3]);
    var w5 := Step(w4, keys, es[4]);
    RunCons(w, keys, es[0], s1);
    RunCons(w1, keys, es[1], s2);
    RunCons(w2, keys, es[2], s3);
    RunCons(w3, keys, es[3], s4);
    RunCons(w4, keys, es[4], s5);
    RunCons(w5, keys, es[5], []);
    assert Run(Step(w5, keys, es[5]), keys, []) == Step(w5, keys, es[5]) by { RunNone(Step(w5, keys, es[5]), keys); }
  }

  lemma RunNone(w: World, keys: Keys)
    ensures Run(w, keys, []) == w
  {
  }

  lemma {:induction false} RunAppend(w: World, keys: Keys, es: seq<Event>, more: seq<Event>)
    ensures Run(w, keys, es + more) == Run(Run(w, keys, es), keys, more)
    decreases |es|
  {
    if es == [] {
      Nil(more);
    } else {
      hide Step;
      Tail(es, more);
      RunAppend(Step(w, keys, es[0]), keys, es[1..], more);
    }
  }

  // ----- emptying a channel

  function Delivers(x: Side, n: nat): seq<Event> { if n == 0 then [] else [Deliver(x)] + Delivers(x, n - 1) }

  lemma {:induction false} DeliversQuiet(x: Side, n: nat)
    ensures Quiet(Delivers(x, n))
  {
    if n > 0 { DeliversQuiet(x, n - 1); }
  }

  /** `w` with `x` in another state and one more message behind what is on its way to the other. */
  function Overlaid(w: World, x: Side, p: Peer, m: Message, asked: nat): World {
    WithAsked(WithInto(WithPeer(w, x, p), Other(x), Into(w, Other(x)) + [m]), x, asked)
  }

  /** Emptying the channel into `Other(x)`: it neither sees nor touches what `x` holds. */
  lemma {:induction false} Drained(w: World, keys: Keys, x: Side, p: Peer, m: Message, asked: nat)
    requires keys.a != keys.b && Inv(w, keys)
    ensures var y := Other(x);
            var ds := Delivers(y, |Into(w, y)|);
            var w1 := Run(w, keys, ds);
            && Inv(w1, keys) && Into(w1, y) == [] && PeerOf(w1, x) == PeerOf(w, x)
            && Run(Overlaid(w, x, p, m, asked), keys, ds) == Overlaid(w1, x, p, m, asked)
    decreases |Into(w, Other(x))|
  {
    hide Inv, Step, Overlaid, Run;
    var y := Other(x);
    if Into(w, y) == [] {
      RunNone(w, keys);
      RunNone(Overlaid(w, x, p, m, asked), keys);
    } else {
      var n := Step(w, keys, Deliver(y));
      StepKeeps(w, keys, Deliver(y));
      OneDelivered(w, keys, x, p, m, asked);
      Drained(n, keys, x, p, m, asked);
      RunCons(w, keys, Deliver(y), Delivers(y, |Into(w, y)| - 1));
      RunCons(Overlaid(w, x, p, m, asked), keys, Deliver(y), Delivers(y, |Into(w, y)| - 1));
    }
  }

  lemma OneDelivered(w: World, keys: Keys, x: Side, p: Peer, m: Message, asked: nat)
    requires Into(w, Other(x)) != []
    ensures var y := Other(x);
            var n := Step(w, keys, Deliver(y));
            && Into(n, y) == Into(w, y)[1..] && PeerOf(n, x) == PeerOf(w, x)
            && Step(Overlaid(w, x, p, m, asked), keys, Deliver(y)) == Overlaid(n, x, p, m, asked)
  {
    var ch := Into(w, Other(x));
    Tail(ch, [m]);
    hide Receive, OursStands;
  }

  // ----- a letter nobody can open

  /** `p` has no ratchet of session `s`. */
  predicate Ignorant(p: Peer, s: Session) {
    (p.session.Some? ==> p.session.value.session != s) && (p.lost.Some? ==> p.lost.value.session != s)
  }

  /** Once the channel holds letters only, the last of them on a session its reader does not have, delivering them all
      leaves one unread. */
  lemma {:induction false} GoesUnread(w: World, keys: Keys, x: Side, s: Session)
    requires var ch := Into(w, x);
             && ch != [] && (forall i :: 0 <= i < |ch| ==> ch[i].Letter?) && ch[|ch| - 1].session == s
             && (w.unread || Ignorant(PeerOf(w, x), s))
    ensures Run(w, keys, Delivers(x, |Into(w, x)|)).unread
    decreases |Into(w, x)|
  {
    var ch := Into(w, x);
    var n := Step(w, keys, Deliver(x));
    assert n.unread || (|ch| > 1 && Ignorant(PeerOf(n, x), s));
    assert Into(n, x) == ch[1..];
    RunCons(w, keys, Deliver(x), Delivers(x, |ch| - 1));
    if |ch| > 1 {
      assert forall i :: 0 <= i < |ch[1..]| ==> ch[1..][i] == ch[i + 1];
      hide Step;
      GoesUnread(n, keys, x, s);
    }
  }

  /** The same with the other side's init still in front: it is taken first, as a crossing. */
  lemma GoesUnreadPastInit(w: World, keys: Keys, x: Side, s: Session, i: Session)
    requires var ch := Into(w, x);
             && |ch| > 1 && ch[0] == Init(i) && (forall k :: 0 < k < |ch| ==> ch[k].Letter?) && ch[|ch| - 1].session == s
             && i != s && PeerOf(w, x).session.Some? && PeerOf(w, x).ownInit.Some? && PeerOf(w, x).lost.None?
             && (OursStands(keys, x) ==> PeerOf(w, x).session.value.session != s)
    ensures Run(w, keys, Delivers(x, |Into(w, x)|)).unread
  {
    var ch := Into(w, x);
    var n := Step(w, keys, Deliver(x));
    assert Into(n, x) == ch[1..] && Ignorant(PeerOf(n, x), s);
    assert forall k :: 0 <= k < |ch[1..]| ==> ch[1..][k] == ch[k + 1];
    hide Step, OursStands;
    RunCons(w, keys, Deliver(x), Delivers(x, |ch| - 1));
    GoesUnread(n, keys, x, s);
  }

  // ----- an opening that finishes late can always be made to lose a letter

  /** What a good view says once everything on its way to the other side has arrived. */
  lemma Emptied(v: View, x: Side)
    requires Good(v, x) && v.out == [] && v.me.session.Some?
    ensures v.me.openings <= 1 && v.you.session.Some?
    ensures v.you.session.value.session == First(Other(x)) || (v.me.openings == 1 && v.you.session.value.session == First(x))
    ensures forall k :: 0 < k < |v.inn| ==> v.inn[k].Letter?
    ensures v.inn != [] && v.inn[0].Init? ==>
              && v.inn[0].session == First(Other(x)) && v.me.openings == 1 && v.you.openings == 1
              && (v.stands ==> v.you.session.value.session == First(x))
              && (!v.stands ==> v.you.lost.Some?)
  {
    var m := Mirror(v);
    assert MeOk(v, x) && MeOk(m, Other(x));
    assert Got(m) == (v.me.openings >= 1);
    if v.inn != [] && v.inn[0].Init? { assert !Got(v) && v.you.openings == 1; }
    hide IndexesOk;
  }

  /** The state of the world after the late install, everything older delivered to the other side. */
  lemma LateSend(w: World, keys: Keys, x: Side, late: World) returns (more: seq<Event>)
    requires keys.a != keys.b && Inv(w, keys) && Into(w, Other(x)) == [] && PeerOf(w, x).session.Some?
    requires var (p, m) := OpenSession(PeerOf(w, x), x); late == Overlaid(w, x, p, m, Asked(late, x))
    ensures Quiet(more) && Run(late, keys, more).unread
  {
    var y := Other(x);
    var v := ViewOf(w, keys, x);
    Seen(w, keys, x);
    Emptied(v, x);
    LessTrichotomy(keys.a, keys.b);
    hide Good, Less;
    var (p, m) := OpenSession(PeerOf(w, x), x);
    var begun := Session(x, PeerOf(w, x).openings);
    var crossed := v.inn != [] && v.inn[0].Init?;
    if crossed && !v.stands {
      // The other side's own init was answered by a lost one: it takes the late init as a new start.
      var taken := Step(late, keys, Deliver(y));
      assert Into(taken, y) == [] && PeerOf(taken, y).session == Some(Accepted(begun));
      assert PeerOf(taken, x) == p && Into(taken, x) == v.inn;
      more := Reply(taken, keys, x, begun);
      RunCons(late, keys, Deliver(y), more);
      more := [Deliver(y)] + more;
    } else {
      more := Reply(late, keys, x, v.you.session.value.session);
    }
  }

  /** The other side sends once on its session `s`, and everything is delivered to `x`, which has no such session. */
  lemma Reply(w: World, keys: Keys, x: Side, s: Session) returns (more: seq<Event>)
    requires PeerOf(w, Other(x)).session.Some? && PeerOf(w, Other(x)).session.value.session == s
    requires var p, ch := PeerOf(w, x), Into(w, x);
             && p.session.Some? && p.ownInit.Some? && p.lost.None?
             && (forall k :: 0 < k < |ch| ==> ch[k].Letter?)
             && (if ch != [] && ch[0].Init? then ch[0].session != s && (OursStands(keys, x) ==> p.session.value.session != s)
                 else p.session.value.session != s)
    ensures Quiet(more) && Run(w, keys, more).unread
  {
    hide OursStands, Run;
    var y := Other(x);
    var sent := Step(w, keys, Send(y));
    var ch := Into(w, x);
    assert Into(sent, x) == ch + [SendLetter(PeerOf(w, y)).1] && PeerOf(sent, x) == PeerOf(w, x);
    hide Step;
    var ds := Delivers(x, |ch| + 1);
    if ch != [] && ch[0].Init? {
      GoesUnreadPastInit(sent, keys, x, s, ch[0].session);
    } else {
      GoesUnread(sent, keys, x, s);
    }
    DeliversQuiet(x, |ch| + 1);
    more := [Send(y)] + ds;
    RunCons(w, keys, Send(y), ds);
  }

  lemma LateLoses(w: World, keys: Keys, x: Side) returns (more: seq<Event>)
    requires keys.a != keys.b && Inv(w, keys) && Asked(w, x) > 0 && PeerOf(w, x).session.Some?
    ensures Quiet(more) && Run(Step(w, keys, Install(x)), keys, more).unread
  {
    hide Run, Inv;
    var y := Other(x);
    var (p, m) := OpenSession(PeerOf(w, x), x);
    var late := Step(w, keys, Install(x));
    assert late == Overlaid(w, x, p, m, Asked(w, x) - 1);
    Drained(w, keys, x, p, m, Asked(w, x) - 1);
    var ds := Delivers(y, |Into(w, y)|);
    var w1 := Run(w, keys, ds);
    hide Step;
    more := LateSend(w1, keys, x, Overlaid(w1, x, p, m, Asked(w, x) - 1));
    RunAppend(late, keys, ds, more);
    DeliversQuiet(y, |Into(w, y)|);
    more := ds + more;
  }

  // ----- exactly the punctual runs are safe

  lemma {:induction false} QuietIsPunctual(w: World, keys: Keys, es: seq<Event>)
    requires Quiet(es)
    ensures AllPunctual(w, keys, es)
    decreases |es|
  {
    if es != [] {
      assert forall i :: 0 <= i < |es[1..]| ==> es[1..][i] == es[i + 1];
      QuietIsPunctual(Step(w, keys, es[0]), keys, es[1..]);
    }
  }

  lemma GoodIsSafe(w: World, keys: Keys)
    requires keys.a != keys.b && Inv(w, keys)
    ensures Safe(w, keys)
  {
    hide Run, Quiet;
    forall more | Quiet(more) ensures !Run(w, keys, more).unread {
      QuietIsPunctual(w, keys, more);
      RunKeeps(w, keys, more);
    }
  }

  /** Between good clients, an install is safe exactly when it finds no session. */
  lemma InstallSafeExactly(w: World, keys: Keys, x: Side)
    requires keys.a != keys.b && Inv(w, keys) && Asked(w, x) > 0
    ensures Safe(Step(w, keys, Install(x)), keys) <==> PeerOf(w, x).session.None?
  {
    hide Inv, Run;
    if PeerOf(w, x).session.None? {
      StepKeeps(w, keys, Install(x));
      GoodIsSafe(Step(w, keys, Install(x)), keys);
    } else {
      var more := LateLoses(w, keys, x);
    }
  }

  ghost predicate AlwaysSafe(w: World, keys: Keys, es: seq<Event>)
    decreases |es|
  {
    Safe(w, keys) && (es != [] ==> AlwaysSafe(Step(w, keys, es[0]), keys, es[1..]))
  }

  lemma {:induction false} SafeExactlyFrom(w: World, keys: Keys, es: seq<Event>)
    requires keys.a != keys.b && Inv(w, keys)
    ensures AlwaysSafe(w, keys, es) <==> AllPunctual(w, keys, es)
    decreases |es|
  {
    GoodIsSafe(w, keys);
    if es != [] {
      var n := Step(w, keys, es[0]);
      if Punctual(w, es[0]) {
        StepKeeps(w, keys, es[0]);
        hide Inv, Step, Safe;
        SafeExactlyFrom(n, keys, es[1..]);
      } else {
        InstallSafeExactly(w, keys, es[0].who);
        assert !Safe(n, keys);
      }
    }
  }

  /** Over every run of two clients: every moment of it is safe, whatever they write and however it is delivered from
      there, if and only if no session was installed over another. */
  lemma SafeExactly(keys: Keys, es: seq<Event>)
    requires keys.a != keys.b
    ensures AlwaysSafe(START, keys, es) <==> AllPunctual(START, keys, es)
  {
    SafeExactlyFrom(START, keys, es);
  }

  // ----- when the two sides agree after all

  predicate OnlyDeliveries(es: seq<Event>) { forall i :: 0 <= i < |es| ==> es[i].Deliver? }

  /** A peer after everything in a channel was delivered to it. */
  function TakenAll(p: Peer, ch: seq<Message>, stands: bool): Peer
    decreases |ch|
  {
    if ch == [] then p
    else
      var q := Receive(p, ch[0], stands);
      TakenAll(if q.Some? then q.value else p, ch[1..], stands)
  }

  /** In whatever order two channels are emptied, each side ends where its own channel takes it. */
  lemma {:induction false} Emptying(w: World, keys: Keys, es: seq<Event>, x: Side)
    requires OnlyDeliveries(es)
    ensures var n := Run(w, keys, es);
            TakenAll(PeerOf(n, x), Into(n, x), OursStands(keys, x)) == TakenAll(PeerOf(w, x), Into(w, x), OursStands(keys, x))
    decreases |es|
  {
    if es != [] {
      var n := Step(w, keys, es[0]);
      assert forall i :: 0 <= i < |es[1..]| ==> es[1..][i] == es[i + 1];
      assert TakenAll(PeerOf(n, x), Into(n, x), OursStands(keys, x)) == TakenAll(PeerOf(w, x), Into(w, x), OursStands(keys, x)) by {
        hide Receive, OursStands;
      }
      hide Step, OursStands, TakenAll;
      Emptying(n, keys, es[1..], x);
    }
  }

  lemma {:induction false} TakenAppend(p: Peer, ch: seq<Message>, m: Message, stands: bool)
    ensures TakenAll(p, ch + [m], stands) == TakenAll(TakenAll(p, ch, stands), [m], stands)
    decreases |ch|
  {
    hide Receive;
    if ch == [] {
      Nil([m]);
    } else {
      Tail(ch, [m]);
      var q := Receive(p, ch[0], stands);
      TakenAppend(if q.Some? then q.value else p, ch[1..], m, stands);
    }
  }

  /** The name of the session a peer sends on. */
  function Sending(p: Peer): Option<Session> { if p.session.Some? then Some(p.session.value.session) else None }

  /** Letters replace no session and set none aside; one read on the session sent on answers our own init. */
  lemma {:induction false} LettersOnly(p: Peer, ch: seq<Message>, stands: bool)
    requires forall i :: 0 <= i < |ch| ==> ch[i].Letter?
    ensures var q := TakenAll(p, ch, stands);
            && Sending(q) == Sending(p) && (q.lost.Some? <==> p.lost.Some?) && q.openings == p.openings
            && (p.ownInit.None? ==> q.ownInit.None?) && (ch == [] ==> q == p)
    decreases |ch|
  {
    if ch != [] {
      var m := ch[0];
      var q := Receive(p, m, stands);
      assert forall i :: 0 <= i < |ch[1..]| ==> ch[1..][i] == ch[i + 1];
      LettersOnly(if q.Some? then q.value else p, ch[1..], stands);
    }
  }

  /** The late side: it keeps the session it installed, unless the other's init is still on its way and the other's key is
      the smaller one. */
  lemma LateSide(v: View, x: Side)
    requires Good(v, x) && v.me.session.Some?
    ensures var begun := Session(x, v.me.openings);
            var p := TakenAll(OpenSession(v.me, x).0, v.inn, v.stands);
            Sending(p) == Some(if v.inn != [] && v.inn[0].Init? && !v.stands then First(Other(x)) else begun)
  {
    var p := OpenSession(v.me, x).0;
    assert InnOk(v, x);
    hide Good;
    if v.inn != [] && v.inn[0].Init? {
      var q := Receive(p, v.inn[0], v.stands).value;
      var rest := v.inn[1..];
      assert forall i :: 0 <= i < |rest| ==> rest[i] == v.inn[i + 1] && rest[i].Letter?;
      LettersOnly(q, rest, v.stands);
    } else {
      LettersOnly(p, v.inn, v.stands);
    }
  }

  /** A first letter from a side that opened nothing is on the other's session and answers its init. */
  lemma FirstAnswers(v: View, x: Side)
    requires Good(v, x) && v.me.openings == 0 && v.out != []
    ensures TakenAll(v.you, v.out, !v.stands).ownInit.None?
  {
    var m := Mirror(v);
    assert InnOk(m, Other(x)) && MeOk(m, Other(x)) && MeOk(v, x) && m.inn[0] == v.out[0] && m.you.openings == 0;
    assert v.out[0].Letter?;
    LetterOpens(m, Other(x));
    assert v.you.lost.None?;
    var rest := v.out[1..];
    var q := Receive(v.you, v.out[0], !v.stands).value;
    assert forall i :: 0 <= i < |rest| ==> rest[i] == m.inn[i + 1] && rest[i].Letter?;
    hide Good;
    LettersOnly(q, rest, !v.stands);
  }

  /** The other side once everything older has reached it, if nothing of the late side's was ever opened. */
  lemma OtherSideFirst(v: View, x: Side)
    requires Good(v, x) && v.me.session.Some? && v.me.openings == 0
    ensures var q := TakenAll(v.you, v.out, !v.stands);
            && Sending(q) == Some(First(Other(x))) && q.lost.None?
            && (q.ownInit.Some? <==> v.you.ownInit.Some? && v.out == [])
  {
    var m := Mirror(v);
    assert MeOk(v, x) && MeOk(m, Other(x)) && InnOk(m, Other(x));
    assert forall i :: 0 <= i < |v.out| ==> v.out[i] == m.inn[i] && v.out[i].Letter?;
    if v.out != [] { FirstAnswers(v, x); }
    hide Good, IndexesOk;
    LettersOnly(v.you, v.out, !v.stands);
  }

  /** The same if the late side had opened one: by now the other has taken it or set it aside. */
  lemma OtherSideAgain(v: View, x: Side)
    requires Good(v, x) && v.out == [] && v.me.openings == 1
    ensures v.you.session.Some? && (!v.stands ==> v.you.lost.Some? || v.you.ownInit.None?)
  {
    var m := Mirror(v);
    assert MeOk(m, Other(x)) && Got(m);
    hide IndexesOk, InnOk;
  }

  /** What the late install comes to, from where the late side stood: the two sides part exactly when the other has the
      smaller key and holds on to its own session for want of an answer to its init, or, the late side having opened before,
      its init is still on the way. */
  predicate Parts(v: View) {
    && !v.stands
    && if v.me.openings == 0 then v.you.ownInit.Some? && v.out == [] else v.inn != [] && v.inn[0].Init?
  }

  /** The late init, as the other side takes it when everything older has arrived. */
  lemma TakesLate(q: Peer, s: Session, stands: bool)
    requires q.session.Some?
    ensures Sending(TakenAll(q, [Init(s)], stands)) ==
            if stands && q.ownInit.Some? && q.lost.None? then Sending(q) else Some(s)
  {
    var one := [Init(s)];
    assert one[1..] == [];
    assert TakenAll(q, one, stands) == TakenAll(Receive(q, Init(s), stands).value, [], stands);
  }

  lemma LateOther(w: World, keys: Keys, x: Side)
    requires keys.a != keys.b && Inv(w, keys) && PeerOf(w, x).session.Some?
    ensures var v, y := ViewOf(w, keys, x), Other(x);
            var begun := Session(x, v.me.openings);
            Sending(TakenAll(v.you, v.out + [Init(begun)], OursStands(keys, y))) ==
            Some(if !v.stands && v.me.openings == 0 && v.you.ownInit.Some? && v.out == [] then First(y) else begun)
  {
    var v, y := ViewOf(w, keys, x), Other(x);
    Seen(w, keys, x);
    LessTrichotomy(keys.a, keys.b);
    assert OursStands(keys, y) == !v.stands;
    assert MeOk(v, x);
    hide Less, OursStands;
    var q, begun := TakenAll(v.you, v.out, !v.stands), Session(x, v.me.openings);
    TakenAppend(v.you, v.out, Init(begun), !v.stands);
    if v.me.openings == 0 {
      OtherSideFirst(v, x);
    } else {
      var ds := Delivers(y, |v.out|);
      Drained(w, keys, x, v.me, Init(begun), 0);
      DeliversOnly(y, |v.out|);
      Emptying(w, keys, ds, y);
      var w1 := Run(w, keys, ds);
      Seen(w1, keys, x);
      assert PeerOf(w1, y) == q;
      hide Run, Good, Inv;
      OtherSideAgain(ViewOf(w1, keys, x), x);
    }
    hide TakenAll;
    TakesLate(q, begun, !v.stands);
  }

  lemma {:induction false} DeliversOnly(x: Side, n: nat)
    ensures OnlyDeliveries(Delivers(x, n))
  {
    if n > 0 { DeliversOnly(x, n - 1); }
  }

  /** After a late install between good clients, in whatever order what is under way is then delivered, both sides end on the
      same session if and only if they do not part. */
  lemma LateAgreesExactly(w: World, keys: Keys, x: Side, es: seq<Event>)
    requires keys.a != keys.b && Inv(w, keys) && Asked(w, x) > 0 && PeerOf(w, x).session.Some? && OnlyDeliveries(es)
    ensures var n := Run(Step(w, keys, Install(x)), keys, es);
            n.toA == [] && n.toB == [] ==>
              n.a.session.Some? && n.b.session.Some? && (Sending(n.a) == Sending(n.b) <==> !Parts(ViewOf(w, keys, x)))
  {
    var late := Step(w, keys, Install(x));
    var n, y, v := Run(late, keys, es), Other(x), ViewOf(w, keys, x);
    Seen(w, keys, x);
    assert PeerOf(late, x) == OpenSession(v.me, x).0 && Into(late, x) == v.inn;
    assert PeerOf(late, y) == v.you && Into(late, y) == v.out + [Init(Session(x, v.me.openings))];
    Emptying(late, keys, es, x);
    Emptying(late, keys, es, y);
    LateSide(v, x);
    LateOther(w, keys, x);
    assert MeOk(v, x);
    hide Good, OursStands, Inv, Step, Run;
    if n.toA == [] && n.toB == [] {
      assert TakenAll(PeerOf(n, x), Into(n, x), OursStands(keys, x)) == PeerOf(n, x);
      assert TakenAll(PeerOf(n, y), Into(n, y), OursStands(keys, y)) == PeerOf(n, y);
    }
  }

  /** Over every punctual run and one more install, of whichever side, late or not: however the channels are then emptied, the
      two sides end on the same session if and only if the install was punctual or the sides do not part. */
  lemma ConvergesExactly(keys: Keys, es: seq<Event>, x: Side, ds: seq<Event>)
    requires keys.a != keys.b && AllPunctual(START, keys, es) && OnlyDeliveries(ds)
    requires Asked(Run(START, keys, es), x) > 0
    ensures var w := Run(START, keys, es);
            var n := Run(Step(w, keys, Install(x)), keys, ds);
            n.toA == [] && n.toB == [] ==>
              && n.a.session.Some? && n.b.session.Some?
              && (Sending(n.a) == Sending(n.b) <==> PeerOf(w, x).session.None? || !Parts(ViewOf(w, keys, x)))
  {
    RunKeeps(START, keys, es);
    var w := Run(START, keys, es);
    hide Run, Inv, Parts;
    if PeerOf(w, x).session.Some? {
      hide Step;
      LateAgreesExactly(w, keys, x, ds);
    } else {
      var late := Step(w, keys, Install(x));
      StepKeeps(w, keys, Install(x));
      assert PeerOf(late, x).openings >= 1;
      hide Step;
      OnlyQuiet(ds);
      QuietIsPunctual(late, keys, ds);
      RunKeeps(late, keys, ds);
      KeepsOpenings(late, keys, ds, x);
      GoodAgree(Run(late, keys, ds), keys, x);
    }
  }

  lemma GoodAgree(n: World, keys: Keys, x: Side)
    requires keys.a != keys.b && Inv(n, keys) && PeerOf(n, x).openings >= 1
    ensures n.toA == [] && n.toB == [] ==> n.a.session.Some? && n.b.session.Some? && Sending(n.a) == Sending(n.b)
  {
    Seen(n, keys, A);
    var v := ViewOf(n, keys, A);
    assert MeOk(v, A) && MeOk(Mirror(v), B);
    hide Less, OursStands, IndexesOk, InnOk;
  }

  lemma OnlyQuiet(es: seq<Event>)
    requires OnlyDeliveries(es)
    ensures Quiet(es)
  {
  }

  lemma {:induction false} KeepsOpenings(w: World, keys: Keys, es: seq<Event>, x: Side)
    ensures PeerOf(Run(w, keys, es), x).openings >= PeerOf(w, x).openings
    decreases |es|
  {
    if es != [] {
      assert PeerOf(Step(w, keys, es[0]), x).openings >= PeerOf(w, x).openings by { hide OursStands; }
      hide Step;
      KeepsOpenings(Step(w, keys, es[0]), keys, es[1..], x);
    }
  }
}
