/** Two native clients opening sessions at each other: `ensure_session_for`, `send_payload_via_relay` and
    `handle_incoming_envelope` over first-in-first-out channels. */
module Crossing {
  import opened Prelude

  /** A session is named by who opened it and which of their openings it was. */
  datatype Session = Session(opener: Side, serial: nat)

  /** What decides whether a letter opens: the session, the next index to send, the indexes already read. */
  datatype Ratchet = Ratchet(session: Session, sent: nat, spent: set<nat>)

  datatype Message = Init(session: Session) | Letter(session: Session, n: nat)

  /** One client's view of the other: `sessions`, `own_inits`, `lost_inits`, and how often it opened a session. */
  datatype Peer = Peer(session: Option<Ratchet>, ownInit: Option<Session>, lost: Option<Ratchet>, openings: nat)

  // ----- what one client does

  /** The end of `ensure_session_for`, once the bundle is there: whatever the maps hold by now is overwritten. */
  function OpenSession(p: Peer, me: Side): (Peer, Message) {
    var s := Session(me, p.openings);
    (Peer(Some(Ratchet(s, 1, {})), Some(s), None, p.openings + 1), Init(s))
  }

  /** `send_payload_via_relay`. */
  function SendLetter(p: Peer): (Peer, Message)
    requires p.session.Some?
  {
    var r := p.session.value;
    (p.(session := Some(r.(sent := r.sent + 1))), Letter(r.session, r.sent))
  }

  predicate Opens(r: Option<Ratchet>, s: Session, n: nat) {
    r.Some? && r.value.session == s && n !in r.value.spent
  }

  function Spend(r: Ratchet, n: nat): Ratchet { r.(spent := r.spent + {n}) }

  /** The session an X3DH init establishes on the receiving side, its first index read with it. */
  function Accepted(s: Session): Ratchet { Ratchet(s, 0, {0}) }

  /** `handle_incoming_envelope`; `None` is a letter no session opens. */
  function Receive(p: Peer, m: Message, oursStands: bool): Option<Peer> {
    match m
    case Init(s) =>
      var crossed := p.ownInit.Some? && p.session.Some? && p.lost.None?;
      if crossed && oursStands then Some(p.(lost := Some(Accepted(s))))
      else Some(p.(ownInit := None, lost := None, session := Some(Accepted(s))))
    case Letter(s, n) =>
      if Opens(p.session, s, n) then Some(p.(session := Some(Spend(p.session.value, n)), ownInit := None))
      else if Opens(p.lost, s, n) then Some(p.(lost := Some(Spend(p.lost.value, n))))
      else None
  }

  /** The maps of `Core` for one contact, updated in place. */
  class Client {
    var session: Option<Ratchet>
    var ownInit: Option<Session>
    var lost: Option<Ratchet>
    var openings: nat
    var asks: nat

    function View(): Peer
      reads this
    {
      Peer(session, ownInit, lost, openings)
    }

    constructor ()
      ensures View() == Peer(None, None, None, 0) && asks == 0
    {
      session, ownInit, lost, openings, asks := None, None, None, 0, 0;
    }

    /** This client is side `x` of `w`. */
    ghost predicate Plays(w: World, x: Side)
      reads this
    {
      PeerOf(w, x) == View() && Asked(w, x) == asks
    }

    /** The start of `ensure_session_for`: in whatever world this client is a side of, it is the other side's business as
        before, and one more opening waits for its bundle exactly when there is no session. */
    method EnsureSession() returns (ask: bool)
      modifies this`asks
      ensures forall w, keys, x | old(Plays(w, x)) ::
                var n := Step(w, keys, Ask(x));
                Plays(n, x) && (ask <==> n != w) && PeerOf(n, Other(x)) == PeerOf(w, Other(x)) && Into(n, Other(x)) == Into(w, Other(x))
    {
      if session.Some? { return false; }
      asks := asks + 1;
      ask := true;
    }

    /** The rest of it, after the wait: no second look at the maps. */
    method Install(me: Side) returns (out: Message)
      requires asks > 0
      modifies this
      ensures (View(), out) == OpenSession(old(View()), me) && asks == old(asks) - 1
    {
      asks := asks - 1;
      var s := Session(me, openings);
      ownInit := Some(s);
      lost := None;
      session := Some(Ratchet(s, 1, {}));
      openings := openings + 1;
      out := Init(s);
    }

    method SendPayload() returns (out: Option<Message>)
      modifies this`session
      ensures old(session).None? ==> View() == old(View()) && out == None
      ensures old(session).Some? ==> (View(), out) == (SendLetter(old(View())).0, Some(SendLetter(old(View())).1))
    {
      if session.None? { return None; }
      var r := session.value;
      out := Some(Letter(r.session, r.sent));
      session := Some(r.(sent := r.sent + 1));
    }

    method HandleEnvelope(m: Message, oursStands: bool) returns (read: bool)
      modifies this`session, this`ownInit, this`lost
      ensures read <==> Receive(old(View()), m, oursStands).Some?
      ensures View() == if read then Receive(old(View()), m, oursStands).value else old(View())
    {
      match m {
        case Init(s) =>
          var crossed := ownInit.Some? && session.Some?;
          crossed := crossed && lost.None?;
          read := true;
          if crossed && oursStands {
            lost := Some(Accepted(s));
            return;
          }
          ownInit := None;
          lost := None;
          session := Some(Accepted(s));
        case Letter(s, n) =>
          if Opens(session, s, n) {
            session := Some(Spend(session.value, n));
            ownInit := None;
            return true;
          }
          if Opens(lost, s, n) {
            lost := Some(Spend(lost.value, n));
            return true;
          }
          read := false;
      }
    }
  }

  // ----- both clients and the channels between them

  /** `toA`/`toB` are the channels into each side; `unread` is raised by a letter that does not open; `askA`/`askB` count
      the openings that wait for a bundle. */
  datatype World = World(a: Peer, b: Peer, toA: seq<Message>, toB: seq<Message>, unread: bool, askA: nat, askB: nat)

  datatype Event = Ask(who: Side) | Install(who: Side) | Send(who: Side) | Deliver(who: Side)

  /** The two signing keys, which are different. */
  datatype Keys = Keys(a: Bytes, b: Bytes)

  function PeerOf(w: World, x: Side): Peer { if x == A then w.a else w.b }

  function Into(w: World, x: Side): seq<Message> { if x == A then w.toA else w.toB }

  function WithPeer(w: World, x: Side, p: Peer): World { if x == A then w.(a := p) else w.(b := p) }

  function WithInto(w: World, x: Side, ch: seq<Message>): World { if x == A then w.(toA := ch) else w.(toB := ch) }

  function Asked(w: World, x: Side): nat { if x == A then w.askA else w.askB }

  function WithAsked(w: World, x: Side, n: nat): World { if x == A then w.(askA := n) else w.(askB := n) }

  function KeyOf(keys: Keys, x: Side): Bytes { if x == A then keys.a else keys.b }

  /** `ours_stands`: the lower signing key wins. */
  predicate OursStands(keys: Keys, x: Side) { Less(KeyOf(keys, x), KeyOf(keys, Other(x))) }

  const START := World(Peer(None, None, None, 0), Peer(None, None, None, 0), [], [], false, 0, 0)

  /** One event; an event that is not enabled changes nothing. */
  function Step(w: World, keys: Keys, e: Event): World {
    var x := e.who;
    var p, y := PeerOf(w, x), Other(x);
    match e
    case Ask(_) => if p.session.Some? then w else WithAsked(w, x, Asked(w, x) + 1)
    case Install(_) =>
      if Asked(w, x) == 0 then w
      else
        var (q, m) := OpenSession(p, x);
        WithAsked(WithInto(WithPeer(w, x, q), y, Into(w, y) + [m]), x, Asked(w, x) - 1)
    case Send(_) =>
      if p.session.None? then w
      else var (q, m) := SendLetter(p); WithInto(WithPeer(w, x, q), y, Into(w, y) + [m])
    case Deliver(_) =>
      if Into(w, x) == [] then w
      else
        var left := WithInto(w, x, Into(w, x)[1..]);
        var q := Receive(p, Into(w, x)[0], OursStands(keys, x));
        if q.Some? then WithPeer(left, x, q.value) else left.(unread := true)
  }

  function Run(w: World, keys: Keys, es: seq<Event>): World
    decreases |es|
  {
    if es == [] then w else Run(Step(w, keys, es[0]), keys, es[1..])
  }

  /** A session is installed only while there is still none: no init was taken, and no other opening finished, during the
      wait for the bundle. */
  predicate Punctual(w: World, e: Event) { e.Install? && Asked(w, e.who) > 0 ==> PeerOf(w, e.who).session.None? }

  predicate AllPunctual(w: World, keys: Keys, es: seq<Event>)
    decreases |es|
  {
    es != [] ==> Punctual(w, es[0]) && AllPunctual(Step(w, keys, es[0]), keys, es[1..])
  }

  // ----- what every step keeps, seen from one side

  /** The world from one side: my peer state and the other's, the channels into me and into them, whether mine is
      the smaller key. */
  datatype View = View(me: Peer, you: Peer, inn: seq<Message>, out: seq<Message>, stands: bool)

  function ViewOf(w: World, keys: Keys, x: Side): View {
    var y := Other(x);
    View(PeerOf(w, x), PeerOf(w, y), Into(w, x), Into(w, y), OursStands(keys, x))
  }

  function Mirror(v: View): View { View(v.you, v.me, v.out, v.inn, !v.stands) }

  /** You have opened and your init has reached me: an init is the first thing a side ever sends. */
  predicate Got(v: View) { v.you.openings >= 1 && !(v.inn != [] && v.inn[0].Init?) }

  function First(x: Side): Session { Session(x, 0) }

  /** The session I send on, given what I have opened and seen. */
  function Chosen(v: View, x: Side): Session {
    if v.me.openings == 1 && (v.stands || !Got(v)) then First(x) else First(Other(x))
  }

  predicate MeOk(v: View, x: Side) {
    var s := v.me.session;
    && v.me.openings <= 1 && (v.me.ownInit.Some? ==> v.me.openings == 1)
    && (s.None? <==> v.me.openings == 0 && !Got(v))
    && (s.Some? ==> s.value.session == Chosen(v, x))
    && (v.me.lost.Some? <==> v.me.openings == 1 && Got(v) && v.stands)
    && (v.me.lost.Some? ==> v.me.lost.value.session == First(Other(x)))
    && (v.me.openings == 1 && !Got(v) && (v.you.openings == 1 || v.you.session.None?) ==> v.me.ownInit.Some?)
    && (s.Some? && s.value.session == First(x) ==> s.value.sent >= 1 && (!Got(Mirror(v)) ==> s.value.spent == {}))
  }

  /** A letter on its way to me: on your session, or on mine once you have taken it. */
  predicate LetterOk(v: View, x: Side, m: Message)
    requires m.Letter?
  {
    if m.session == First(Other(x)) then v.you.openings == 1 && m.n >= 1
    else m.session == First(x) && v.me.openings == 1 && Got(Mirror(v)) && (!v.stands ==> v.you.openings == 0)
  }

  /** The channel into me: an init only in front, then letters I can place. */
  predicate InnOk(v: View, x: Side) {
    forall k :: 0 <= k < |v.inn| ==>
      var m := v.inn[k];
      if m.Init? then k == 0 && m.session == First(Other(x)) && v.you.openings == 1 else LetterOk(v, x, m)
  }

  predicate Below(spent: set<nat>, n: nat) { forall m :: m in spent ==> m < n }

  predicate OnSession(m: Message, s: Session) { m.Letter? && m.session == s }

  /** Indexes on the way grow per session and stay below the sender's next. */
  predicate Growing(ch: seq<Message>, sender: Option<Ratchet>) {
    && (forall i, j :: 0 <= i < j < |ch| && ch[i].Letter? && OnSession(ch[j], ch[i].session) ==> ch[i].n < ch[j].n)
    && (forall k :: 0 <= k < |ch| && sender.Some? && OnSession(ch[k], sender.value.session) ==> ch[k].n < sender.value.sent)
  }

  /** Everything still to come on `r`'s session is above what `r` has read. */
  predicate Ahead(r: Option<Ratchet>, ch: seq<Message>, sender: Option<Ratchet>) {
    r.Some? ==>
      && (forall k :: 0 <= k < |ch| && OnSession(ch[k], r.value.session) ==> Below(r.value.spent, ch[k].n))
      && (sender.Some? && sender.value.session == r.value.session ==> Below(r.value.spent, sender.value.sent))
  }

  predicate IndexesOk(v: View) {
    Growing(v.inn, v.you.session) && Ahead(v.me.session, v.inn, v.you.session) && Ahead(v.me.lost, v.inn, v.you.session)
  }

  predicate HalfOk(v: View, x: Side) { MeOk(v, x) && InnOk(v, x) && IndexesOk(v) }

  predicate Good(v: View, x: Side) { HalfOk(v, x) && HalfOk(Mirror(v), Other(x)) }

  // ----- one step, by the side that takes it

  function Opened(v: View, x: Side): View
    requires v.me.session.None?
  {
    var (q, m) := OpenSession(v.me, x);
    v.(me := q, out := v.out + [m])
  }

  function Sent(v: View): View
    requires v.me.session.Some?
  {
    var (q, m) := SendLetter(v.me);
    v.(me := q, out := v.out + [m])
  }

  function Taken(v: View, q: Peer): View
    requires v.inn != []
  {
    v.(me := q, inn := v.inn[1..])
  }

  /** Nothing is on its way from a side that neither opened nor took a session. */
  lemma SpokeLater(v: View, x: Side)
    requires HalfOk(Mirror(v), Other(x)) && v.out != []
    ensures v.me.openings >= 1 || Got(v)
  {
    assert Mirror(v).inn[0] == v.out[0];
  }

  lemma OpenedGood(v: View, x: Side)
    requires Good(v, x) && v.me.session.None?
    ensures Good(Opened(v, x), x)
  {
    var n := Opened(v, x);
    if v.out != [] { SpokeLater(v, x); }
    assert HalfOk(n, x);
    assert HalfOk(Mirror(n), Other(x));
  }

  lemma SentGood(v: View, x: Side)
    requires Good(v, x) && v.me.session.Some?
    ensures Good(Sent(v), x)
  {
    SentMine(v, x);
    SentYours(v, x);
  }

  lemma SentMine(v: View, x: Side)
    requires Good(v, x) && v.me.session.Some?
    ensures HalfOk(Sent(v), x)
  {
    var n := Sent(v);
    assert Got(n) == Got(v) && Got(Mirror(n)) == Got(Mirror(v));
    assert MeOk(n, x) && InnOk(n, x);
    assert IndexesOk(n);
  }

  lemma SentYours(v: View, x: Side)
    requires Good(v, x) && v.me.session.Some?
    ensures HalfOk(Mirror(Sent(v)), Other(x))
  {
    var n := Mirror(Sent(v));
    var m := SendLetter(v.me).1;
    assert Got(n) == Got(Mirror(v)) && Got(Mirror(n)) == Got(v);
    assert LetterOk(n, Other(x), m);
    assert forall k :: 0 <= k < |v.out| ==> n.inn[k] == v.out[k];
    assert MeOk(n, Other(x));
    assert InnOk(n, Other(x));
    GrowingMore(v.out, v.me.session.value);
    AheadMore(v.you.session, v.out, v.me.session.value);
    AheadMore(v.you.lost, v.out, v.me.session.value);
  }

  lemma GrowingMore(ch: seq<Message>, r: Ratchet)
    requires Growing(ch, Some(r))
    ensures Growing(ch + [Letter(r.session, r.sent)], Some(r.(sent := r.sent + 1)))
  {
  }

  lemma AheadMore(mine: Option<Ratchet>, ch: seq<Message>, r: Ratchet)
    requires Ahead(mine, ch, Some(r))
    ensures Ahead(mine, ch + [Letter(r.session, r.sent)], Some(r.(sent := r.sent + 1)))
  {
  }

  /** A letter at the front of a channel opens. */
  lemma LetterOpens(v: View, x: Side)
    requires Good(v, x) && v.inn != [] && v.inn[0].Letter?
    ensures var m := v.inn[0];
            LetterOk(v, x, m) && (Opens(v.me.session, m.session, m.n) || Opens(v.me.lost, m.session, m.n))
  {
    var m := v.inn[0];
    assert LetterOk(v, x, m);
    assert OnSession(m, m.session);
  }

  lemma AheadRead(r: Option<Ratchet>, ch: seq<Message>, sender: Option<Ratchet>)
    requires ch != [] && Ahead(r, ch, sender) && Growing(ch, sender)
    ensures Ahead(r, ch[1..], sender) && Growing(ch[1..], sender)
    ensures r.Some? && ch[0].Letter? && OnSession(ch[0], r.value.session) ==>
              Ahead(Some(Spend(r.value, ch[0].n)), ch[1..], sender)
  {
    var rest := ch[1..];
    assert forall k :: 0 <= k < |rest| ==> rest[k] == ch[k + 1];
  }

  lemma ReadGood(v: View, x: Side)
    requires Good(v, x) && v.inn != [] && v.inn[0].Letter?
    ensures var q := Receive(v.me, v.inn[0], v.stands); q.Some? && Good(Taken(v, q.value), x)
  {
    LetterOpens(v, x);
    ReadMine(v, x);
    ReadYours(v, x);
  }

  lemma ReadMine(v: View, x: Side)
    requires Good(v, x) && v.inn != [] && v.inn[0].Letter?
    requires Receive(v.me, v.inn[0], v.stands).Some?
    ensures HalfOk(Taken(v, Receive(v.me, v.inn[0], v.stands).value), x)
  {
    var n := Taken(v, Receive(v.me, v.inn[0], v.stands).value);
    assert LetterOk(v, x, v.inn[0]);
    AheadRead(v.me.session, v.inn, v.you.session);
    AheadRead(v.me.lost, v.inn, v.you.session);
    assert forall k :: 0 <= k < |n.inn| ==> n.inn[k] == v.inn[k + 1];
    assert Got(n) == Got(v) && Got(Mirror(n)) == Got(Mirror(v));
    hide Growing, Ahead;
    assert MeOk(n, x) && InnOk(n, x) && IndexesOk(n);
  }

  lemma ReadYours(v: View, x: Side)
    requires Good(v, x) && v.inn != [] && v.inn[0].Letter?
    requires Receive(v.me, v.inn[0], v.stands).Some?
    ensures HalfOk(Mirror(Taken(v, Receive(v.me, v.inn[0], v.stands).value)), Other(x))
  {
    var n := Mirror(Taken(v, Receive(v.me, v.inn[0], v.stands).value));
    assert v.inn != [] && Got(n) == Got(Mirror(v));
    assert Got(Mirror(n)) == Got(v) by {
      assert |v.inn| > 1 ==> v.inn[1..][0] == v.inn[1];
    }
    assert MeOk(n, Other(x)) && InnOk(n, Other(x));
    assert IndexesOk(n);
  }

  lemma AcceptGood(v: View, x: Side)
    requires Good(v, x) && v.inn != [] && v.inn[0].Init?
    ensures var q := Receive(v.me, v.inn[0], v.stands); q.Some? && Good(Taken(v, q.value), x)
  {
    AcceptMine(v, x);
    AcceptYours(v, x);
  }

  lemma AcceptMine(v: View, x: Side)
    requires Good(v, x) && v.inn != [] && v.inn[0].Init?
    ensures HalfOk(Taken(v, Receive(v.me, v.inn[0], v.stands).value), x)
  {
    var n := Taken(v, Receive(v.me, v.inn[0], v.stands).value);
    assert forall k :: 0 <= k < |n.inn| ==> n.inn[k] == v.inn[k + 1];
    assert Got(n) && !Got(v) && Got(Mirror(n)) == Got(Mirror(v));
    assert MeOk(n, x);
    assert InnOk(n, x);
    AheadRead(v.me.session, v.inn, v.you.session);
    assert IndexesOk(n);
  }

  lemma AcceptYours(v: View, x: Side)
    requires Good(v, x) && v.inn != [] && v.inn[0].Init?
    ensures HalfOk(Mirror(Taken(v, Receive(v.me, v.inn[0], v.stands).value)), Other(x))
  {
    var n := Mirror(Taken(v, Receive(v.me, v.inn[0], v.stands).value));
    assert Got(Mirror(n)) && !Got(v) && Got(n) == Got(Mirror(v));
    assert MeOk(n, Other(x));
    assert InnOk(n, Other(x));
    assert IndexesOk(n);
  }

  // ----- whole runs

  ghost predicate Inv(w: World, keys: Keys) { !w.unread && Good(ViewOf(w, keys, A), A) }

  lemma Seen(w: World, keys: Keys, x: Side)
    requires keys.a != keys.b
    ensures Mirror(ViewOf(w, keys, x)) == ViewOf(w, keys, Other(x))
    ensures Good(ViewOf(w, keys, A), A) <==> Good(ViewOf(w, keys, x), x)
  {
    LessTrichotomy(keys.a, keys.b);
    var v := ViewOf(w, keys, x);
    assert Mirror(Mirror(v)) == v;
  }

  lemma StepKeeps(w: World, keys: Keys, e: Event)
    requires keys.a != keys.b && Inv(w, keys) && Punctual(w, e)
    ensures Inv(Step(w, keys, e), keys)
  {
    hide Good, OursStands;
    var x, n := e.who, Step(w, keys, e);
    var v := ViewOf(w, keys, x);
    Seen(w, keys, x);
    Seen(n, keys, x);
    match e {
      case Ask(_) =>
      case Install(_) => if Asked(w, x) > 0 { OpenedGood(v, x); }
      case Send(_) => if v.me.session.Some? { SentGood(v, x); }
      case Deliver(_) =>
        if v.inn == [] {
        } else if v.inn[0].Init? {
          AcceptGood(v, x);
        } else {
          ReadGood(v, x);
        }
    }
  }

  lemma {:induction false} RunKeeps(w: World, keys: Keys, es: seq<Event>)
    requires keys.a != keys.b && Inv(w, keys) && AllPunctual(w, keys, es)
    ensures Inv(Run(w, keys, es), keys)
    decreases |es|
  {
    if es != [] {
      StepKeeps(w, keys, es[0]);
      RunKeeps(Step(w, keys, es[0]), keys, es[1..]);
    }
  }

  // ----- the theorems

  /** Over every interleaving of punctual installs, sends and deliveries: no letter arrives that the receiver cannot open,
      so no resync is ever asked for, and nobody opens more than one session. */
  lemma EveryLetterOpens(keys: Keys, es: seq<Event>)
    requires keys.a != keys.b && AllPunctual(START, keys, es)
    ensures var w := Run(START, keys, es); !w.unread && w.a.openings <= 1 && w.b.openings <= 1
  {
    RunKeeps(START, keys, es);
  }

  /** Once both channels have drained, both sides hold the same session or none; if both opened one, it is the one
      of the smaller signing key; and if only one did, it is theirs. */
  lemma Converges(keys: Keys, es: seq<Event>)
    requires keys.a != keys.b && AllPunctual(START, keys, es)
    ensures var w := Run(START, keys, es);
            w.toA == [] && w.toB == [] ==>
              && (w.a.session.None? <==> w.b.session.None?)
              && (w.a.session.None? <==> w.a.openings == 0 && w.b.openings == 0)
              && (w.a.session.Some? ==>
                    && w.a.session.value.session == w.b.session.value.session
                    && w.a.session.value.session.opener ==
                       if w.b.openings == 0 || (w.a.openings == 1 && Less(keys.a, keys.b)) then A else B)
  {
    RunKeeps(START, keys, es);
    Seen(Run(START, keys, es), keys, A);
  }
}
