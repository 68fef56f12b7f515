/** Two browser engines, any delivery order that brings a session's init before its letters, any clocks. */
module Readable {
  import opened Prelude
  import opened Crossing
  import opened EnginePeer

  /** One engine: its slots for the other, how often it initiated, and whether it has taken the other's init. */
  datatype Engine = Engine(slots: Slots, openings: nat, got: bool)

  /** `toA`/`toB` hold what is under way; `unread` is raised by a letter that does not open. */
  datatype Net = Net(a: Engine, b: Engine, toA: seq<Message>, toB: seq<Message>, unread: bool)

  datatype Act = Initiate(who: Side, dh: Key, now: Millis) | Write(who: Side) | Arrive(who: Side, k: nat, now: Millis)

  function AttemptOn(s: Session, n: nat): Attempt {
    (r: Ratchet) => if r.session == s && n !in r.spent then Some(Spend(r, n)) else None
  }

  /** The world from one side. */
  datatype Half = Half(me: Engine, you: Engine, inn: seq<Message>, out: seq<Message>)

  function HalfOf(w: Net, x: Side): Half {
    if x == A then Half(w.a, w.b, w.toA, w.toB) else Half(w.b, w.a, w.toB, w.toA)
  }

  function NetOf(h: Half, x: Side, unread: bool): Net {
    if x == A then Net(h.me, h.you, h.inn, h.out, unread) else Net(h.you, h.me, h.out, h.inn, unread)
  }

  function Flip(h: Half): Half { Half(h.you, h.me, h.out, h.inn) }

  function Initiates(h: Half, x: Side, dh: Key, now: Millis): Half {
    var s := Session(x, h.me.openings);
    var slots := Initiated(h.me.slots, Ratchet(s, 1, {}), OwnInit(dh, now));
    h.(me := Engine(slots, h.me.openings + 1, h.me.got), out := h.out + [Init(s)])
  }

  function Writes(h: Half): Half
    requires h.me.slots.session.Some?
  {
    var r := h.me.slots.session.value;
    h.(me := h.me.(slots := h.me.slots.(session := Some(r.(sent := r.sent + 1)))),
       out := h.out + [Letter(r.session, r.sent)])
  }

  function Without(ch: seq<Message>, k: nat): seq<Message>
    requires k < |ch|
  {
    ch[..k] + ch[k + 1..]
  }

  /** A letter on the other's session waits for that session's init. */
  predicate MayArrive(h: Half, x: Side, k: nat) {
    k < |h.inn| && (h.inn[k].Init? || h.inn[k].session.opener == x || h.me.got)
  }

  /** The engine's slots after the message; `None` when nothing opens it. */
  function Arrived(p: Slots, m: Message, now: Millis, oursStands: bool): Option<Slots> {
    match m
    case Init(s) => Some(InitTaken(p, Accepted(s), now, oursStands))
    case Letter(s, n) => LetterRead(p, AttemptOn(s, n))
  }

  function Act1(w: Net, keys: Keys, e: Act): Net {
    var x := e.who;
    var h := HalfOf(w, x);
    match e
    case Initiate(_, dh, now) => if h.me.slots.session.Some? then w else NetOf(Initiates(h, x, dh, now), x, w.unread)
    case Write(_) => if h.me.slots.session.None? then w else NetOf(Writes(h), x, w.unread)
    case Arrive(_, k, now) =>
      if !MayArrive(h, x, k) then w
      else
        var m := h.inn[k];
        var left := h.(inn := Without(h.inn, k));
        var slots := Arrived(h.me.slots, m, now, OursStands(keys, x));
        if slots.None? then NetOf(left, x, true)
        else NetOf(left.(me := Engine(slots.value, h.me.openings, h.me.got || m.Init?)), x, w.unread)
  }

  function ActAll(w: Net, keys: Keys, es: seq<Act>): Net
    decreases |es|
  {
    if es == [] then w else ActAll(Act1(w, keys, es[0]), keys, es[1..])
  }

  const IDLE := Engine(NO_SLOTS, 0, false)
  const EMPTY := Net(IDLE, IDLE, [], [], false)

  // ----- what every step keeps

  predicate Holds(r: Option<Ratchet>, s: Session) { r.Some? && r.value.session == s }

  /** My session and yours, each in exactly one slot once it is known to me. */
  predicate SlotsOk(e: Engine, x: Side) {
    var p, mine, yours := e.slots, First(x), First(Other(x));
    && e.openings <= 1
    && (e.openings == 0 && !e.got ==> p.session.None? && p.lost.None? && p.alts == [])
    && (e.openings == 1 && !e.got ==> Holds(p.session, mine) && p.lost.None? && p.alts == [])
    && (e.openings == 0 && e.got ==> Holds(p.session, yours) && p.lost.None? && p.alts == [])
    && (e.openings == 1 && e.got ==>
          || (Holds(p.session, mine) && Holds(p.lost, yours) && p.alts == [])
          || (Holds(p.session, yours) && p.lost.None? && |p.alts| == 1 && p.alts[0].session == mine))
  }

  /** The ratchet an engine holds for a session, wherever it is. */
  function Held(p: Slots, s: Session): Option<Ratchet> {
    if Holds(p.session, s) then p.session
    else if Holds(p.lost, s) then p.lost
    else if p.alts != [] && p.alts[0].session == s then Some(p.alts[0])
    else None
  }

  predicate MessageOk(h: Half, x: Side, m: Message) {
    if m.Init? then m.session == First(Other(x)) && h.you.openings == 1 && !h.me.got
    else if m.session == First(Other(x)) then h.you.openings == 1 && m.n >= 1
    else m.session == First(x) && h.me.openings == 1 && h.you.got
  }

  predicate InnOk(h: Half, x: Side) {
    && (forall k :: 0 <= k < |h.inn| ==> MessageOk(h, x, h.inn[k]))
    && (forall i, j :: 0 <= i < j < |h.inn| ==> h.inn[i] != h.inn[j])
  }

  /** On session `s`: what is under way to me is unread by me and already sent by you. */
  predicate FreshOn(h: Half, s: Session) {
    var mine, yours := Held(h.me.slots, s), Held(h.you.slots, s);
    && (forall k :: 0 <= k < |h.inn| && OnSession(h.inn[k], s) ==>
          && yours.Some? && h.inn[k].n < yours.value.sent
          && (mine.Some? ==> h.inn[k].n !in mine.value.spent))
    && (mine.Some? && yours.Some? ==> Below(mine.value.spent, yours.value.sent))
  }

  predicate HalfGood(h: Half, x: Side) {
    var mine := Held(h.me.slots, First(x));
    && SlotsOk(h.me, x) && InnOk(h, x) && FreshOn(h, First(x)) && FreshOn(h, First(Other(x)))
    && (mine.Some? ==> mine.value.sent >= 1 && (!h.you.got ==> mine.value.spent == {}))
    && (h.me.got ==> h.you.openings == 1)
  }

  predicate Both(h: Half, x: Side) { HalfGood(h, x) && HalfGood(Flip(h), Other(x)) }

  lemma InitiatesGood(h: Half, x: Side, dh: Key, now: Millis)
    requires Both(h, x) && h.me.slots.session.None?
    ensures Both(Initiates(h, x, dh, now), x)
  {
    var n := Initiates(h, x, dh, now);
    assert SlotsOk(n.me, x);
    assert HalfGood(n, x);
    assert InnOk(Flip(n), Other(x));
    assert HalfGood(Flip(n), Other(x));
  }

  lemma WritesGood(h: Half, x: Side)
    requires Both(h, x) && h.me.slots.session.Some?
    ensures Both(Writes(h), x)
  {
    WritesMine(h, x);
    WritesYours(h, x);
  }

  lemma WritesMine(h: Half, x: Side)
    requires Both(h, x) && h.me.slots.session.Some?
    ensures HalfGood(Writes(h), x)
  {
    var n := Writes(h);
    assert SlotsOk(n.me, x) && InnOk(n, x);
  }

  /** Writing advances the ratchet of the primary session and no other. */
  lemma WritesHeld(h: Half, x: Side, s: Session)
    requires SlotsOk(h.me, x) && h.me.slots.session.Some?
    ensures var r := h.me.slots.session.value;
            && Held(h.me.slots, r.session) == Some(r)
            && Held(Writes(h).me.slots, s) == if s == r.session then Some(r.(sent := r.sent + 1)) else Held(h.me.slots, s)
  {
  }

  lemma WritesFresh(h: Half, x: Side, s: Session)
    requires SlotsOk(h.me, x) && h.me.slots.session.Some? && FreshOn(Flip(h), s)
    ensures FreshOn(Flip(Writes(h)), s)
  {
    WritesHeld(h, x, s);
    hide Held, SlotsOk;
    var n := Flip(Writes(h));
    assert forall k :: 0 <= k < |h.out| ==> n.inn[k] == h.out[k];
  }

  lemma WritesYours(h: Half, x: Side)
    requires Both(h, x) && h.me.slots.session.Some?
    ensures HalfGood(Flip(Writes(h)), Other(x))
  {
    var n := Flip(Writes(h));
    WritesFresh(h, x, First(x));
    WritesFresh(h, x, First(Other(x)));
    WritesHeld(h, x, h.me.slots.session.value.session);
    var m := n.inn[|h.out|];
    assert MessageOk(n, Other(x), m);
    assert forall k :: 0 <= k < |h.out| ==> n.inn[k] == h.out[k];
    assert forall k :: 0 <= k < |h.out| ==> h.out[k] != m by { assert FreshOn(Flip(h), m.session); assert OnSession(m, m.session); }
    hide Held, SlotsOk, FreshOn;
    assert InnOk(n, Other(x));
  }

  lemma WithoutFacts(ch: seq<Message>, k: nat)
    requires k < |ch|
    ensures var less := Without(ch, k);
            && |less| == |ch| - 1
            && (forall i :: 0 <= i < |less| ==> less[i] == ch[if i < k then i else i + 1])
  {
  }

  /** A letter that may arrive opens on one of the receiver's sessions, which is the one that advances. */
  lemma LetterReads(h: Half, x: Side, k: nat)
    requires Both(h, x) && MayArrive(h, x, k) && h.inn[k].Letter?
    ensures var m := h.inn[k];
            var p := h.me.slots;
            var r := Held(p, m.session);
            && r.Some? && m.n !in r.value.spent
            && LetterRead(p, AttemptOn(m.session, m.n)) ==
               Some(if Holds(p.session, m.session) then p.(session := Some(Spend(r.value, m.n)), own := None)
                    else if Holds(p.lost, m.session) then p.(lost := Some(Spend(r.value, m.n)))
                    else p.(alts := [Spend(r.value, m.n)] + p.alts[1..]))
  {
    var m := h.inn[k];
    assert MessageOk(h, x, m) && OnSession(m, m.session);
  }

  /** What reading letter `k` does to the receiver's ratchets. */
  ghost predicate ReadInto(h: Half, k: nat, q: Slots) {
    && k < |h.inn| && h.inn[k].Letter? && Held(h.me.slots, h.inn[k].session).Some?
    && Held(q, h.inn[k].session) == Some(Spend(Held(h.me.slots, h.inn[k].session).value, h.inn[k].n))
    && (forall s :: s != h.inn[k].session ==> Held(q, s) == Held(h.me.slots, s))
  }

  lemma ReadsInto(h: Half, x: Side, k: nat, q: Slots)
    requires Both(h, x) && MayArrive(h, x, k) && h.inn[k].Letter?
    requires LetterRead(h.me.slots, AttemptOn(h.inn[k].session, h.inn[k].n)) == Some(q)
    ensures ReadInto(h, k, q) && SlotsOk(h.me.(slots := q), x)
  {
    LetterReads(h, x, k);
    hide LetterRead, AttemptOn, InnOk, FreshOn;
  }

  lemma ReadsMine(h: Half, x: Side, k: nat, q: Slots)
    requires Both(h, x) && ReadInto(h, k, q) && SlotsOk(h.me.(slots := q), x)
    ensures HalfGood(h.(inn := Without(h.inn, k), me := h.me.(slots := q)), x)
  {
    WithoutFacts(h.inn, k);
    var n := h.(inn := Without(h.inn, k), me := h.me.(slots := q));
    hide Held, SlotsOk;
    assert OnSession(h.inn[k], h.inn[k].session) && MessageOk(h, x, h.inn[k]);
    assert InnOk(n, x);
    FreshAfter(h, k, q, First(x));
    FreshAfter(h, k, q, First(Other(x)));
  }

  lemma FreshAfter(h: Half, k: nat, q: Slots, s: Session)
    requires ReadInto(h, k, q) && FreshOn(h, s)
    requires forall i, j :: 0 <= i < j < |h.inn| ==> h.inn[i] != h.inn[j]
    ensures FreshOn(h.(inn := Without(h.inn, k), me := h.me.(slots := q)), s)
  {
    WithoutFacts(h.inn, k);
    hide Held;
    assert OnSession(h.inn[k], h.inn[k].session);
    var n := h.(inn := Without(h.inn, k), me := h.me.(slots := q));
    forall i | 0 <= i < |n.inn| && OnSession(n.inn[i], s)
      ensures Held(h.me.slots, s).Some? ==> n.inn[i].n !in Held(q, s).value.spent
    {
      var j := if i < k then i else i + 1;
      assert n.inn[i] == h.inn[j] && h.inn[j] != h.inn[k];
    }
  }

  lemma ReadsYours(h: Half, x: Side, k: nat, q: Slots)
    requires Both(h, x) && ReadInto(h, k, q)
    ensures HalfGood(Flip(h.(inn := Without(h.inn, k), me := h.me.(slots := q))), Other(x))
  {
    var n := Flip(h.(inn := Without(h.inn, k), me := h.me.(slots := q)));
    assert InnOk(n, Other(x));
    hide Held, SlotsOk;
    assert FreshOn(n, First(x)) && FreshOn(n, First(Other(x)));
  }

  lemma InitGood(h: Half, x: Side, k: nat, now: Millis, stands: bool)
    requires Both(h, x) && MayArrive(h, x, k) && h.inn[k].Init?
    ensures var q := InitTaken(h.me.slots, Accepted(h.inn[k].session), now, stands);
            Both(h.(inn := Without(h.inn, k), me := Engine(q, h.me.openings, true)), x)
  {
    var s := First(Other(x));
    assert MessageOk(h, x, h.inn[k]) && h.inn[k] == Init(s);
    var q := InitTaken(h.me.slots, Accepted(s), now, stands);
    var n := h.(inn := Without(h.inn, k), me := Engine(q, h.me.openings, true));
    WithoutFacts(h.inn, k);
    assert SlotsOk(n.me, x);
    assert Held(q, s) == Some(Accepted(s)) && Held(q, First(x)) == Held(h.me.slots, First(x));
    hide InitTaken, Held;
    InitMine(h, x, k, q);
    InitYours(h, x, k, q);
  }

  lemma InitMine(h: Half, x: Side, k: nat, q: Slots)
    requires Both(h, x) && k < |h.inn| && h.inn[k] == Init(First(Other(x))) && SlotsOk(Engine(q, h.me.openings, true), x)
    requires Held(q, First(Other(x))) == Some(Accepted(First(Other(x)))) && Held(q, First(x)) == Held(h.me.slots, First(x))
    ensures HalfGood(h.(inn := Without(h.inn, k), me := Engine(q, h.me.openings, true)), x)
  {
    var n := h.(inn := Without(h.inn, k), me := Engine(q, h.me.openings, true));
    WithoutFacts(h.inn, k);
    assert MessageOk(h, x, h.inn[k]);
    assert forall i :: 0 <= i < |n.inn| ==> n.inn[i].Letter?;
    assert InnOk(n, x);
    assert Held(h.you.slots, First(Other(x))).Some? by { assert SlotsOk(h.you, Other(x)); }
    hide Held, SlotsOk;
    assert FreshOn(n, First(x)) && FreshOn(n, First(Other(x)));
  }

  lemma InitYours(h: Half, x: Side, k: nat, q: Slots)
    requires Both(h, x) && k < |h.inn| && h.inn[k] == Init(First(Other(x))) && SlotsOk(Engine(q, h.me.openings, true), x)
    requires Held(q, First(Other(x))) == Some(Accepted(First(Other(x)))) && Held(q, First(x)) == Held(h.me.slots, First(x))
    ensures HalfGood(Flip(h.(inn := Without(h.inn, k), me := Engine(q, h.me.openings, true))), Other(x))
  {
    var n := Flip(h.(inn := Without(h.inn, k), me := Engine(q, h.me.openings, true)));
    assert MessageOk(h, x, h.inn[k]);
    assert InnOk(n, Other(x));
    hide Held, SlotsOk;
    assert FreshOn(n, First(x)) && FreshOn(n, First(Other(x)));
  }

  ghost predicate NetInv(w: Net) { !w.unread && Both(HalfOf(w, A), A) }

  lemma Sides(w: Net, x: Side)
    ensures Both(HalfOf(w, A), A) <==> Both(HalfOf(w, x), x)
  {
    assert Flip(Flip(HalfOf(w, x))) == HalfOf(w, x);
  }

  lemma ActKeeps(w: Net, keys: Keys, e: Act)
    requires NetInv(w)
    ensures NetInv(Act1(w, keys, e))
  {
    var x := e.who;
    var h := HalfOf(w, x);
    Sides(w, x);
    Sides(Act1(w, keys, e), x);
    match e {
      case Initiate(_, dh, now) =>
        if h.me.slots.session.None? {
          InitiatesGood(h, x, dh, now);
          hide Both;
        }
      case Write(_) =>
        if h.me.slots.session.Some? {
          WritesGood(h, x);
          hide Both;
        }
      case Arrive(_, k, now) =>
        if MayArrive(h, x, k) {
          if h.inn[k].Init? {
            InitGood(h, x, k, now, OursStands(keys, x));
          } else {
            LetterReads(h, x, k);
            var q := LetterRead(h.me.slots, AttemptOn(h.inn[k].session, h.inn[k].n)).value;
            ReadsInto(h, x, k, q);
            ReadsMine(h, x, k, q);
            ReadsYours(h, x, k, q);
            hide HalfGood, LetterRead, AttemptOn;
          }
        }
    }
  }

  lemma {:induction false} ActAllKeeps(w: Net, keys: Keys, es: seq<Act>)
    requires NetInv(w)
    ensures NetInv(ActAll(w, keys, es))
    decreases |es|
  {
    if es != [] {
      ActKeeps(w, keys, es[0]);
      ActAllKeeps(Act1(w, keys, es[0]), keys, es[1..]);
    }
  }

  // ----- the theorems

  /** Whatever the clocks say and however letters overtake each other: every letter that arrives after its session's
      init opens on the primary, the lost or an alternate session. */
  lemma EveryLetterReads(keys: Keys, es: seq<Act>)
    ensures !ActAll(EMPTY, keys, es).unread
  {
    ActAllKeeps(EMPTY, keys, es);
  }

  /** The clocks can make the two sides settle on different primaries: both read, neither agrees. */
  lemma ClocksCanSplit(keys: Keys, dh: Key)
    ensures var late := FRESH_SESSION_GRACE_MS;
            var w := ActAll(EMPTY, keys, [Initiate(A, dh, 0), Initiate(B, dh, 0), Arrive(A, 0, late), Arrive(B, 0, late)]);
            && w.toA == [] && w.toB == []
            && w.a.slots.session == Some(Accepted(First(B))) && w.b.slots.session == Some(Accepted(First(A)))
  {
    var late := FRESH_SESSION_GRACE_MS;
    var es := [Initiate(A, dh, 0), Initiate(B, dh, 0), Arrive(A, 0, late), Arrive(B, 0, late)];
    var w1 := Act1(EMPTY, keys, es[0]);
    var w2 := Act1(w1, keys, es[1]);
    assert w2.toA == [Init(First(B))] && w2.toB == [Init(First(A))];
    var w3 := Act1(w2, keys, es[2]);
    assert w3.toA == [] && w3.toB == w2.toB;
    var w4 := Act1(w3, keys, es[3]);
    assert w4.toB == [];
    assert es[1..] == [es[1], es[2], es[3]] && es[1..][1..] == [es[2], es[3]] && es[1..][1..][1..] == [es[3]];
    assert es[1..][1..][1..][1..] == [];
    assert ActAll(w3, keys, [es[3]]) == ActAll(w4, keys, []);
    assert ActAll(w2, keys, [es[2], es[3]]) == ActAll(w3, keys, [es[3]]);
    assert ActAll(w1, keys, [es[1], es[2], es[3]]) == ActAll(w2, keys, [es[2], es[3]]);
  }

  // ----- when the primaries agree

  /** The other's init reaches `x` while `x`'s own init is unanswered and fresh. */
  predicate MeetsFresh(w: Net, e: Act, x: Side) {
    var h := HalfOf(w, x);
    e.Arrive? && e.who == x && MayArrive(h, x, e.k) && h.inn[e.k].Init? && Fresh(h.me.slots.own, e.now)
  }

  predicate StoodFresh(w: Net, keys: Keys, es: seq<Act>, x: Side)
    decreases |es|
  {
    es != [] && (MeetsFresh(w, es[0], x) || StoodFresh(Act1(w, keys, es[0]), keys, es[1..], x))
  }

  /** Once both inits are known to `x`, it sends on its own session exactly when it stood: its key is the smaller one and the
      other's init met a fresh one. */
  predicate Tracks(e: Engine, x: Side, stood: bool, smaller: bool) {
    && (!e.got ==> !stood)
    && (e.got && e.openings == 1 ==> (Holds(e.slots.session, First(x)) <==> stood && smaller))
  }

  /** Reading a letter replaces no session. */
  lemma LetterKeepsPrimary(p: Slots, s: Session, n: nat)
    requires LetterRead(p, AttemptOn(s, n)).Some?
    ensures var q := LetterRead(p, AttemptOn(s, n)).value;
            forall t :: Holds(q.session, t) <==> Holds(p.session, t)
  {
    hide AlternateRead;
  }

  lemma TracksStep(w: Net, keys: Keys, e: Act, x: Side, stood: bool)
    requires NetInv(w) && Tracks(HalfOf(w, x).me, x, stood, OursStands(keys, x))
    ensures Tracks(HalfOf(Act1(w, keys, e), x).me, x, stood || MeetsFresh(w, e, x), OursStands(keys, x))
  {
    Sides(w, x);
    var h := HalfOf(w, x);
    assert SlotsOk(h.me, x);
    hide OursStands, FreshOn, NetInv;
    if e.who != x {
      assert HalfOf(Act1(w, keys, e), x).me == h.me;
    } else if e.Arrive? && MayArrive(h, x, e.k) {
      var m := h.inn[e.k];
      assert MessageOk(h, x, m);
      if m.Letter? {
        var q := LetterRead(h.me.slots, AttemptOn(m.session, m.n));
        if q.Some? { LetterKeepsPrimary(h.me.slots, m.session, m.n); }
        hide LetterRead, AttemptOn, SlotsOk, MessageOk;
      }
    }
  }

  lemma {:induction false} TracksRun(w: Net, keys: Keys, es: seq<Act>, x: Side, stood: bool)
    requires NetInv(w) && Tracks(HalfOf(w, x).me, x, stood, OursStands(keys, x))
    ensures Tracks(HalfOf(ActAll(w, keys, es), x).me, x, stood || StoodFresh(w, keys, es, x), OursStands(keys, x))
    decreases |es|
  {
    if es != [] {
      hide Act1, Tracks, NetInv, MeetsFresh, OursStands;
      TracksStep(w, keys, es[0], x, stood);
      ActKeeps(w, keys, es[0]);
      TracksRun(Act1(w, keys, es[0]), keys, es[1..], x, stood || MeetsFresh(w, es[0], x));
    }
  }

  /** Over every order of delivery and all clocks: when both engines initiated and each has taken the other's init, they send
      on the same session if and only if the other's init reached the side of the smaller key while that side's own init was
      unanswered and fresh. */
  lemma PrimariesAgreeExactly(keys: Keys, es: seq<Act>)
    requires keys.a != keys.b
    ensures var w := ActAll(EMPTY, keys, es);
            var x := if Less(keys.a, keys.b) then A else B;
            w.a.openings == 1 && w.b.openings == 1 && w.a.got && w.b.got ==>
              && w.a.slots.session.Some? && w.b.slots.session.Some?
              && (w.a.slots.session.value.session == w.b.slots.session.value.session <==> StoodFresh(EMPTY, keys, es, x))
  {
    var w := ActAll(EMPTY, keys, es);
    var x := if Less(keys.a, keys.b) then A else B;
    LessTrichotomy(keys.a, keys.b);
    TracksRun(EMPTY, keys, es, x, false);
    TracksRun(EMPTY, keys, es, Other(x), false);
    ActAllKeeps(EMPTY, keys, es);
    assert OursStands(keys, x) && !OursStands(keys, Other(x));
    assert SlotsOk(w.a, A) && SlotsOk(w.b, B);
    hide Less, OursStands, ActAll, StoodFresh, NetInv;
  }

  // ----- with fresh clocks and ordered channels the engine is the native client

  function Native(e: Engine, x: Side): Peer {
    Peer(e.slots.session, if e.slots.own.Some? then Some(First(x)) else None, e.slots.lost, e.openings)
  }

  function NativeWorld(w: Net): World { World(Native(w.a, A), Native(w.b, B), w.toA, w.toB, w.unread, 0, 0) }

  /** The engine has its bundle at hand: it asks and installs in one go. */
  function NativeEvent(e: Act): seq<Event> {
    match e
    case Initiate(x, _, _) => [Ask(x), Install(x)]
    case Write(x) => [Send(x)]
    case Arrive(x, _, _) => [Deliver(x)]
  }

  function NativeStep(w: World, keys: Keys, e: Act): World {
    match e
    case Initiate(x, _, _) => Step(Step(w, keys, Ask(x)), keys, Install(x))
    case Write(x) => Step(w, keys, Send(x))
    case Arrive(x, _, _) => Step(w, keys, Deliver(x))
  }

  function NativeEvents(es: seq<Act>): seq<Event> {
    if es == [] then [] else NativeEvent(es[0]) + NativeEvents(es[1..])
  }

  /** Delivered in order, and no own init older than the grace period when something arrives. */
  predicate InTime(w: Net, e: Act) {
    e.Arrive? ==> e.k == 0 && var own := HalfOf(w, e.who).me.slots.own; own.Some? ==> Fresh(own, e.now)
  }

  predicate AllInTime(w: Net, keys: Keys, es: seq<Act>)
    decreases |es|
  {
    es != [] ==> InTime(w, es[0]) && AllInTime(Act1(w, keys, es[0]), keys, es[1..])
  }

  /** The `got` flag is what the ordered channel shows. */
  predicate GotShows(h: Half) { h.me.got == (h.you.openings >= 1 && !(h.inn != [] && h.inn[0].Init?)) }

  ghost predicate Simulates(w: Net, keys: Keys) {
    Inv(NativeWorld(w), keys) && GotShows(HalfOf(w, A)) && GotShows(HalfOf(w, B))
  }

  /** One message at the front of a channel does to the engine what it does to the native client. */
  lemma ArrivesAlike(e: Engine, x: Side, m: Message, now: Millis, stands: bool)
    requires e.slots.own.Some? ==> Fresh(e.slots.own, now)
    requires m.Letter? ==> Opens(e.slots.session, m.session, m.n) || Opens(e.slots.lost, m.session, m.n)
    ensures var q := Arrived(e.slots, m, now, stands);
            var r := Receive(Native(e, x), m, stands);
            q.Some? && r.Some? && Native(e.(slots := q.value), x) == r.value
  {
    if m.Letter? {
      var attempt := AttemptOn(m.session, m.n);
      assert e.slots.session.Some? ==> (attempt(e.slots.session.value).Some? <==> Opens(e.slots.session, m.session, m.n));
      assert e.slots.lost.Some? ==> (attempt(e.slots.lost.value).Some? <==> Opens(e.slots.lost, m.session, m.n));
    }
  }

  lemma InitiateAlike(w: Net, keys: Keys, e: Act)
    requires e.Initiate? && (HalfOf(w, e.who).me.slots.session.None? ==> HalfOf(w, e.who).me.openings == 0)
    ensures NativeWorld(Act1(w, keys, e)) == NativeStep(NativeWorld(w), keys, e)
  {
  }

  lemma WriteAlike(w: Net, keys: Keys, e: Act)
    requires e.Write?
    ensures NativeWorld(Act1(w, keys, e)) == NativeStep(NativeWorld(w), keys, e)
  {
  }

  lemma ArriveAlike(w: Net, keys: Keys, e: Act)
    requires e.Arrive? && InTime(w, e)
    requires var h := HalfOf(w, e.who);
             h.inn != [] ==>
               var m := h.inn[0];
               && MayArrive(h, e.who, 0)
               && (m.Letter? ==> Opens(h.me.slots.session, m.session, m.n) || Opens(h.me.slots.lost, m.session, m.n))
    ensures NativeWorld(Act1(w, keys, e)) == NativeStep(NativeWorld(w), keys, e)
  {
    var x := e.who;
    var h := HalfOf(w, x);
    if h.inn != [] {
      ArrivesAlike(h.me, x, h.inn[0], e.now, OursStands(keys, x));
      assert Without(h.inn, 0) == h.inn[1..];
      hide Arrived, Receive, OursStands, Opens, Without;
    }
  }

  lemma StepsAlike(w: Net, keys: Keys, e: Act)
    requires keys.a != keys.b && Simulates(w, keys) && InTime(w, e)
    ensures NativeWorld(Act1(w, keys, e)) == NativeStep(NativeWorld(w), keys, e)
  {
    var x := e.who;
    var h, v := HalfOf(w, x), ViewOf(NativeWorld(w), keys, x);
    Crossing.Seen(NativeWorld(w), keys, x);
    hide Good, OursStands, Less;
    assert v.me == Native(h.me, x) && v.inn == h.inn && v.you == Native(h.you, Other(x));
    match e {
      case Initiate(_, _, _) =>
        InitInFront(v, x);
        InitiateAlike(w, keys, e);
      case Write(_) =>
        WriteAlike(w, keys, e);
      case Arrive(_, _, _) =>
        if h.inn != [] {
          FrontMayArrive(w, keys, x);
          if h.inn[0].Letter? { LetterOpens(v, x); }
        }
        ArriveAlike(w, keys, e);
    }
  }

  lemma FrontMayArrive(w: Net, keys: Keys, x: Side)
    requires keys.a != keys.b && Simulates(w, keys) && HalfOf(w, x).inn != []
    ensures MayArrive(HalfOf(w, x), x, 0)
  {
    Crossing.Seen(NativeWorld(w), keys, x);
    var v := ViewOf(NativeWorld(w), keys, x);
    assert v.inn == HalfOf(w, x).inn;
    if v.inn[0].Letter? {
      LetterOpens(v, x);
      assert v.inn[0].session.opener == x || v.you.openings == 1;
    }
  }

  lemma GotKept(w: Net, keys: Keys, e: Act)
    requires keys.a != keys.b && Simulates(w, keys) && InTime(w, e)
    requires NativeWorld(Act1(w, keys, e)) == NativeStep(NativeWorld(w), keys, e)
    ensures Simulates(Act1(w, keys, e), keys)
  {
    hide NativeStep, Step, Good, OursStands, Less, Arrived;
    var n := Act1(w, keys, e);
    var x := e.who;
    NativeKeeps(NativeWorld(w), keys, e);
    Crossing.Seen(NativeWorld(w), keys, x);
    Crossing.Seen(NativeWorld(n), keys, x);
    var v, m := ViewOf(NativeWorld(w), keys, x), ViewOf(NativeWorld(n), keys, x);
    InitInFront(v, x);
    InitInFront(m, x);
    var h, k := HalfOf(w, x), HalfOf(n, x);
    assert v.inn == h.inn && m.out == k.out && v.you.openings == h.you.openings;
    hide NativeWorld;
    match e {
      case Initiate(_, _, _) => GotInitiate(w, keys, e);
      case Write(_) => GotWrite(w, keys, e);
      case Arrive(_, _, _) => GotArrive(w, keys, e);
    }
  }

  lemma GotInitiate(w: Net, keys: Keys, e: Act)
    requires e.Initiate? && GotShows(HalfOf(w, A)) && GotShows(HalfOf(w, B))
    requires forall k :: 0 < k < |HalfOf(Act1(w, keys, e), e.who).out| ==> HalfOf(Act1(w, keys, e), e.who).out[k].Letter?
    requires HalfOf(w, e.who).me.slots.session.None? ==> HalfOf(w, e.who).me.openings == 0
    ensures var n := Act1(w, keys, e); GotShows(HalfOf(n, A)) && GotShows(HalfOf(n, B))
  {
    var h, k := HalfOf(w, e.who), HalfOf(Act1(w, keys, e), e.who);
    if h.me.slots.session.None? {
      assert k.out[|h.out|].Init? && h.out == [];
    }
  }

  lemma GotWrite(w: Net, keys: Keys, e: Act)
    requires e.Write? && GotShows(HalfOf(w, A)) && GotShows(HalfOf(w, B))
    ensures var n := Act1(w, keys, e); GotShows(HalfOf(n, A)) && GotShows(HalfOf(n, B))
  {
  }

  lemma GotArrive(w: Net, keys: Keys, e: Act)
    requires e.Arrive? && e.k == 0 && GotShows(HalfOf(w, A)) && GotShows(HalfOf(w, B))
    requires var h := HalfOf(w, e.who);
             && (forall k :: 0 < k < |h.inn| ==> h.inn[k].Letter?)
             && (h.inn != [] && h.inn[0].Init? ==> h.you.openings >= 1)
    ensures var n := Act1(w, keys, e); GotShows(HalfOf(n, A)) && GotShows(HalfOf(n, B))
  {
    hide Less, OursStands;
    var h, k := HalfOf(w, e.who), HalfOf(Act1(w, keys, e), e.who);
    if MayArrive(h, e.who, 0) {
      assert Without(h.inn, 0) == h.inn[1..];
      assert k.inn == h.inn[1..] && k.me.got == (h.me.got || h.inn[0].Init?) && k.me.openings == h.me.openings;
      assert k.you == h.you && k.out == h.out;
      hide Act1, Arrived;
      GotPast(h, k);
    }
  }

  lemma GotPast(h: Half, k: Half)
    requires GotShows(h) && GotShows(Flip(h)) && h.inn != [] && k.inn == h.inn[1..]
    requires forall i :: 0 < i < |h.inn| ==> h.inn[i].Letter?
    requires h.inn[0].Init? ==> h.you.openings >= 1
    requires k.me.got == (h.me.got || h.inn[0].Init?) && k.me.openings == h.me.openings && k.you == h.you && k.out == h.out
    ensures GotShows(k) && GotShows(Flip(k))
  {
  }

  /** In a good view inits stand only at the front of a channel. */
  lemma InitInFront(v: View, x: Side)
    requires Good(v, x)
    ensures forall k :: 0 < k < |v.inn| ==> v.inn[k].Letter?
    ensures forall k :: 0 < k < |v.out| ==> v.out[k].Letter?
    ensures v.inn != [] && v.inn[0].Init? ==> v.you.openings >= 1
    ensures v.me.session.None? ==> v.me.openings == 0
  {
    assert forall k :: 0 <= k < |v.out| ==> v.out[k] == Mirror(v).inn[k];
  }

  lemma NativeKeeps(w: World, keys: Keys, e: Act)
    requires keys.a != keys.b && Inv(w, keys) && w.askA == 0 && w.askB == 0
    ensures Inv(NativeStep(w, keys, e), keys)
  {
    hide Inv;
    match e {
      case Initiate(x, _, _) =>
        StepKeeps(w, keys, Ask(x));
        StepKeeps(Step(w, keys, Ask(x)), keys, Install(x));
      case Write(x) => StepKeeps(w, keys, Send(x));
      case Arrive(x, _, _) => StepKeeps(w, keys, Deliver(x));
    }
  }

  lemma RunsNative(w: World, keys: Keys, e: Act, rest: seq<Event>)
    requires w.askA == 0 && w.askB == 0
    ensures Run(w, keys, NativeEvent(e) + rest) == Run(NativeStep(w, keys, e), keys, rest)
    ensures AllPunctual(w, keys, NativeEvent(e) + rest) == AllPunctual(NativeStep(w, keys, e), keys, rest)
  {
    var all := NativeEvent(e) + rest;
    Tail(NativeEvent(e), rest);
    Nil(rest);
    if e.Initiate? {
      assert NativeEvent(e)[1..] == [Install(e.who)];
      Cons(Install(e.who), rest);
      assert Punctual(Step(w, keys, all[0]), Install(e.who));
    }
  }

  /** With ordered channels and fresh clocks the engine does what the native client does, and always punctually. */
  lemma {:induction false} RunsAlike(w: Net, keys: Keys, es: seq<Act>)
    requires keys.a != keys.b && Simulates(w, keys) && AllInTime(w, keys, es)
    ensures NativeWorld(ActAll(w, keys, es)) == Run(NativeWorld(w), keys, NativeEvents(es))
    ensures AllPunctual(NativeWorld(w), keys, NativeEvents(es))
    decreases |es|
  {
    if es != [] {
      hide Step, NativeStep, Act1, NativeEvent, Simulates, InTime;
      StepsAlike(w, keys, es[0]);
      GotKept(w, keys, es[0]);
      RunsAlike(Act1(w, keys, es[0]), keys, es[1..]);
      RunsNative(NativeWorld(w), keys, es[0], NativeEvents(es[1..]));
    }
  }

  /** With ordered channels and fresh clocks the engines agree just as the native clients do. */
  lemma FreshEnginesConverge(keys: Keys, es: seq<Act>)
    requires keys.a != keys.b && AllInTime(EMPTY, keys, es)
    ensures var w := ActAll(EMPTY, keys, es);
            w.toA == [] && w.toB == [] && w.a.openings == 1 && w.b.openings == 1 ==>
              var winner := if Less(keys.a, keys.b) then A else B;
              Holds(w.a.slots.session, First(winner)) && Holds(w.b.slots.session, First(winner))
  {
    RunsAlike(EMPTY, keys, es);
    Converges(keys, NativeEvents(es));
    OneSession(keys, NativeEvents(es));
  }

  /** A session anyone sends on is its opener's first. */
  lemma OneSession(keys: Keys, es: seq<Event>)
    requires keys.a != keys.b && AllPunctual(START, keys, es)
    ensures var w := Run(START, keys, es);
            && (w.a.session.Some? ==> w.a.session.value.session.serial == 0)
            && (w.b.session.Some? ==> w.b.session.value.session.serial == 0)
  {
    RunKeeps(START, keys, es);
    Crossing.Seen(Run(START, keys, es), keys, A);
  }
}
