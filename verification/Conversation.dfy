/** Two browser engines with all their peers, calls and failures: towards each other they are the pair of `Readable`. */
module Conversation {
  import opened Prelude
  import opened Crossing
  import opened EnginePeer
  import opened Profile
  import opened EngineOps
  import opened Effects
  import Readable

  /** A user: signing key and long-term DH key. */
  datatype Party = Party(sign: Key, dh: Key)

  datatype Parties = Parties(a: Party, b: Party)

  function Of(ps: Parties, x: Side): Party { if x == A then ps.a else ps.b }

  function KeysOf(ps: Parties): Keys { Keys(ps.a.sign, ps.b.sign) }

  /** Both candidates, and beside them what is under way between the two. */
  datatype Pair = Pair(a: State, b: State, net: Readable.Net)

  function StateOf(d: Pair, x: Side): State { if x == A then d.a else d.b }

  function WithState(d: Pair, x: Side, st: State): Pair { if x == A then d.(a := st) else d.(b := st) }

  /** A call that sends to the other of the pair or takes a message of theirs, or any other call of one engine. */
  datatype Move = Carry(act: Readable.Act, call: Call) | Aside(who: Side, call: Call)

  function Who(m: Move): Side { if m.Carry? then m.act.who else m.who }

  /** The caller names the sender or not, and pins the sender's key or not. */
  predicate Names(from: Option<Key>, pinned: Option<Key>, you: Party) {
    (from == None || from == Some(you.sign)) && (pinned == None || pinned == Some(you.dh))
  }

  /** The letter opens with the session and index it was sealed with, bound to its sender's key; without a named sender the
      walk comes past the sender, and no other peer's ratchet opens it. */
  ghost predicate CarriesLetter(p: Peers, you: Party, c: Call, s: Session, n: nat) {
    && c.TakeLetter? && Names(c.from, c.pinned, you)
    && (forall r :: c.open(you.dh, r) == if r.session == s && n !in r.spent then Some(r.(spent := r.spent + {n})) else None)
    && (c.from == None ==> you.sign in c.order && forall k :: k in p.dhs && k != you.sign ==> Shut(p, k, p.dhs[k], c.open))
  }

  /** The init derives a ratchet of its session that has read its first index, and there is a place for it. */
  predicate CarriesInit(st: State, you: Party, c: Call, s: Session, now: Millis) {
    && c.TakeInit? && Names(c.from, c.pinned, you) && c.init.sign == you.sign && c.init.dh == you.dh && c.now == now
    && (you.sign in st.peers.sessions || |st.peers.sessions| < 1024)
    && Accept(st.prekeys, c.init, c.supply).0 == Some(Ratchet(s, 0, {0}))
  }

  /** The call an act is carried out by. */
  ghost predicate Carries(d: Pair, ps: Parties, e: Readable.Act, c: Call) {
    var x := e.who;
    var st, you, h := StateOf(d, x), Of(ps, Other(x)), Readable.HalfOf(d.net, x);
    match e
    case Initiate(_, dh, now) =>
      && c.Encrypt? && c.peer == you.sign && c.dh == you.dh && c.now == now
      && you.sign !in st.peers.sessions && |st.peers.sessions| < 1024
      && c.bundle == Bundle(you.sign, you.dh, Some((Ratchet(Session(x, h.me.openings), 1, {}), dh)))
    case Write(_) =>
      && c.Encrypt? && c.peer == you.sign && you.sign in st.peers.sessions
      && var r := st.peers.sessions[you.sign]; c.advance(r) == Some(r.(sent := r.sent + 1))
    case Arrive(_, k, now) =>
      && Readable.MayArrive(h, x, k)
      && match h.inn[k]
         case Init(s) => CarriesInit(st, you, c, s, now)
         case Letter(s, n) => CarriesLetter(st.peers, you, c, s, n)
  }

  /** A call about others: not about the other of the pair, nor a letter without sender that one of its ratchets opens. */
  ghost predicate IsAside(p: Peers, you: Party, c: Call) {
    About(c) != Some(you.sign) && (c.TakeLetter? && c.from.None? && you.sign in p.dhs ==> Shut(p, you.sign, p.dhs[you.sign], c.open))
  }

  ghost predicate Fits(d: Pair, ps: Parties, m: Move) {
    match m
    case Carry(e, c) => Carries(d, ps, e, c)
    case Aside(x, c) => IsAside(StateOf(d, x).peers, Of(ps, Other(x)), c)
  }

  function MoveOn(env: Env, d: Pair, ps: Parties, m: Move): Pair {
    var t := WithState(d, Who(m), Apply(env, StateOf(d, Who(m)), m.call).0);
    if m.Carry? then t.(net := Readable.Act1(d.net, KeysOf(ps), m.act)) else t
  }

  function MoveAll(env: Env, d: Pair, ps: Parties, ms: seq<Move>): Pair
    decreases |ms|
  {
    if ms == [] then d else MoveAll(env, MoveOn(env, d, ps, ms[0]), ps, ms[1..])
  }

  ghost predicate AllFit(env: Env, d: Pair, ps: Parties, ms: seq<Move>)
    decreases |ms|
  {
    ms != [] ==> Fits(d, ps, ms[0]) && AllFit(env, MoveOn(env, d, ps, ms[0]), ps, ms[1..])
  }

  /** The acts the moves carry out. */
  function Acts(ms: seq<Move>): seq<Readable.Act> {
    if ms == [] then [] else (if ms[0].Carry? then [ms[0].act] else []) + Acts(ms[1..])
  }

  // ----- the tie

  /** An engine of one of the pair, with these slots for the other and the other's key on record. */
  predicate Holds(env: Env, st: State, me: Party, you: Party, s: Slots) {
    && env.signKey(st.signSeed) == me.sign && Coherent(st.peers) && SlotsOf(st.peers, you.sign) == s
    && (you.sign in st.peers.dhs ==> st.peers.dhs[you.sign] == you.dh)
  }

  ghost predicate Tied(env: Env, d: Pair, ps: Parties) {
    && Readable.NetInv(d.net)
    && Holds(env, d.a, ps.a, ps.b, d.net.a.slots) && Holds(env, d.b, ps.b, ps.a, d.net.b.slots)
  }

  lemma SeedKept(env: Env, st: State, c: Call)
    ensures Apply(env, st, c).0.signSeed == st.signSeed
  {
    hide Accept, WithSlots, Search, ReadFrom, Vault.ChangePassword, Vault.EnrollPasskey;
  }

  lemma InitiateTied(env: Env, st: State, me: Party, you: Party, c: Call, s: Slots, r: Ratchet, dh: Key)
    requires Holds(env, st, me, you, s) && s.session.None? && |st.peers.sessions| < 1024
    requires c.Encrypt? && c.peer == you.sign && c.dh == you.dh && c.bundle == Bundle(you.sign, you.dh, Some((r, dh)))
    ensures Apply(env, st, c).1 && Holds(env, Apply(env, st, c).0, me, you, Initiated(s, r, OwnInit(dh, c.now)))
  {
    hide Apply, Coherent;
    SeedKept(env, st, c);
    EncryptExactly(env, st, c);
    ApplyCoherent(env, st, c);
    SlotsFit(st.peers, you.sign);
  }

  lemma WriteTied(env: Env, st: State, me: Party, you: Party, c: Call, s: Slots)
    requires Holds(env, st, me, you, s) && s.session.Some? && c.Encrypt? && c.peer == you.sign
    requires var r := s.session.value; c.advance(r) == Some(r.(sent := r.sent + 1))
    ensures var r := s.session.value;
            Apply(env, st, c).1 && Holds(env, Apply(env, st, c).0, me, you, s.(session := Some(r.(sent := r.sent + 1))))
  {
    hide Apply, Coherent;
    SeedKept(env, st, c);
    EncryptExactly(env, st, c);
    ApplyCoherent(env, st, c);
  }

  lemma InitTied(env: Env, st: State, me: Party, you: Party, c: Call, s: Slots, m: Session)
    requires Holds(env, st, me, you, s) && c.TakeInit? && CarriesInit(st, you, c, m, c.now)
    ensures var (t, ok) := Apply(env, st, c);
            ok == c.readable && Holds(env, t, me, you, InitTaken(s, Accepted(m), c.now, Less(me.sign, you.sign)))
  {
    hide Apply, Coherent, Accept;
    SeedKept(env, st, c);
    InitExactly(env, st, c);
    ApplyCoherent(env, st, c);
    assert MayTakeInit(env, st, c);
    ShiftedSlots(st.peers, you.sign);
    hide Less;
  }

  lemma ShiftedSlots(p: Peers, k: Key)
    requires Coherent(p)
    ensures ListOf(Shifted(p, k), k) == PushAlternate(SlotsOf(p, k).alts, SlotsOf(p, k).session)
  {
    ShiftedIs(p, k);
    SlotsFit(p, k);
    hide Coherent;
  }

  lemma {:induction false} AlternatesAlike(alts: seq<Ratchet>, f: Attempt, g: Attempt)
    requires forall r :: f(r) == g(r)
    ensures AlternateRead(alts, f) == AlternateRead(alts, g)
  {
    if alts != [] { AlternatesAlike(alts[1..], f, g); }
  }

  lemma ReadAlike(s: Slots, f: Attempt, g: Attempt)
    requires forall r :: f(r) == g(r)
    ensures LetterRead(s, f) == LetterRead(s, g)
  {
    AlternatesAlike(s.alts, f, g);
    hide AlternateRead;
  }

  lemma SlotsBack(p: Peers, k: Key, s: Slots, dh: Option<Key>)
    ensures SlotsOf(WithSlots(p, k, s, dh), k) == s && Get(WithSlots(p, k, s, dh).dhs, k) == dh
  {
  }

  /** Reading at the sender is reading on its slots. */
  lemma ReadSlots(p: Peers, you: Party, c: Call, s: Session, n: nat)
    requires Coherent(p) && CarriesLetter(p, you, c, s, n) && LetterRead(SlotsOf(p, you.sign), Readable.AttemptOn(s, n)).Some?
    requires you.sign in p.dhs ==> p.dhs[you.sign] == you.dh
    ensures you.sign in p.dhs && !Shut(p, you.sign, you.dh, c.open)
    ensures var r := ReadFrom(p, you.sign, you.dh, c.open);
            && r.Some? && Some(SlotsOf(r.value, you.sign)) == LetterRead(SlotsOf(p, you.sign), Readable.AttemptOn(s, n))
            && Get(r.value.dhs, you.sign) == Some(you.dh)
  {
    var k, slots := you.sign, SlotsOf(p, you.sign);
    SlotsFit(p, k);
    ReadExactly(p, k, you.dh, c.open);
    ReadAlike(slots, r => c.open(you.dh, r), Readable.AttemptOn(s, n));
    SlotsBack(p, k, LetterRead(slots, r => c.open(you.dh, r)).value, Get(p.dhs, k));
    hide Coherent, SlotsOf, WithSlots, Shut, AlternateRead;
  }

  ghost function FirstOf(order: seq<Key>, k: Key): (i: nat)
    requires k in order
    ensures i < |order| && order[i] == k && forall j :: 0 <= j < i ==> order[j] != k
  {
    if order[0] == k then 0 else 1 + FirstOf(order[1..], k)
  }

  /** Named or searched for, the letter is read at its sender. */
  lemma LetterFinds(env: Env, st: State, you: Party, c: Call, s: Session, n: nat)
    requires Coherent(st.peers) && CarriesLetter(st.peers, you, c, s, n)
    requires you.sign in st.peers.dhs && st.peers.dhs[you.sign] == you.dh && !Shut(st.peers, you.sign, you.dh, c.open)
    requires ReadFrom(st.peers, you.sign, you.dh, c.open).Some?
    ensures Apply(env, st, c) == (st.(peers := ReadFrom(st.peers, you.sign, you.dh, c.open).value), c.readable)
  {
    hide Apply, Coherent, ReadFrom, Search, Shut;
    LetterExactly(env, st, c);
    if c.from.None? { SearchExactly(st.peers, c.order, c.open, FirstOf(c.order, you.sign)); }
  }

  lemma LetterTied(env: Env, st: State, me: Party, you: Party, c: Call, slots: Slots, s: Session, n: nat)
    requires Holds(env, st, me, you, slots) && CarriesLetter(st.peers, you, c, s, n)
    requires LetterRead(slots, Readable.AttemptOn(s, n)).Some?
    ensures var (t, ok) := Apply(env, st, c);
            ok == c.readable && Holds(env, t, me, you, LetterRead(slots, Readable.AttemptOn(s, n)).value)
  {
    hide Apply, Coherent, ReadFrom, Shut, LetterRead, CarriesLetter, SlotsOf;
    SeedKept(env, st, c);
    ReadSlots(st.peers, you, c, s, n);
    LetterFinds(env, st, you, c, s, n);
    ApplyCoherent(env, st, c);
  }

  lemma AsideTied(env: Env, st: State, me: Party, you: Party, c: Call, s: Slots)
    requires Holds(env, st, me, you, s) && IsAside(st.peers, you, c)
    ensures Holds(env, Apply(env, st, c).0, me, you, s)
  {
    hide Apply, Coherent, Shut, SlotsOf;
    SeedKept(env, st, c);
    ApplyCoherent(env, st, c);
    OthersKept(env, st, c, you.sign);
  }

  // ----- every move

  /** A carried act is answered as it should be: the call succeeds, unless the text inside is not readable. */
  predicate Answered(env: Env, d: Pair, m: Move) {
    var ok := Apply(env, StateOf(d, Who(m)), m.call).1;
    if m.call.Encrypt? then ok
    else if m.call.TakeInit? then ok == m.call.readable
    else m.call.TakeLetter? && ok == m.call.readable
  }

  /** What the act does to the actor's slots, the call does to the actor's state. */
  lemma CarryTied(env: Env, d: Pair, ps: Parties, e: Readable.Act, c: Call)
    requires Tied(env, d, ps) && Carries(d, ps, e, c)
    ensures Answered(env, d, Carry(e, c))
    ensures var x := e.who;
            var n := Readable.HalfOf(Readable.Act1(d.net, KeysOf(ps), e), x);
            && Holds(env, Apply(env, StateOf(d, x), c).0, Of(ps, x), Of(ps, Other(x)), n.me.slots)
            && n.you == Readable.HalfOf(d.net, x).you
  {
    hide Apply, Holds, CarriesLetter, CarriesInit, LetterRead, Initiated, InitTaken, Less;
    var x := e.who;
    var st, me, you, h := StateOf(d, x), Of(ps, x), Of(ps, Other(x)), Readable.HalfOf(d.net, x);
    hide Readable.NetInv, Readable.HalfGood;
    SessionShows(env, st, me, you, h.me.slots);
    match e
    case Initiate(_, dh, now) => InitiateTied(env, st, me, you, c, h.me.slots, Ratchet(Session(x, h.me.openings), 1, {}), dh);
    case Write(_) => WriteTied(env, st, me, you, c, h.me.slots);
    case Arrive(_, k, now) =>
      match h.inn[k] {
        case Init(s) =>
          NowIs(st, you, c, s, now);
          InitTied(env, st, me, you, c, h.me.slots, s);
        case Letter(s, n) =>
          LetterOpens(d.net, x, k);
          LetterIs(st.peers, you, c, s, n);
          LetterTied(env, st, me, you, c, h.me.slots, s, n);
      }
  }

  lemma LetterOpens(w: Readable.Net, x: Side, k: nat)
    requires Readable.NetInv(w)
    requires var h := Readable.HalfOf(w, x); Readable.MayArrive(h, x, k) && h.inn[k].Letter?
    ensures var h := Readable.HalfOf(w, x); LetterRead(h.me.slots, Readable.AttemptOn(h.inn[k].session, h.inn[k].n)).Some?
  {
    Readable.Sides(w, x);
    hide Readable.HalfGood;
    Readable.LetterReads(Readable.HalfOf(w, x), x, k);
  }

  lemma SessionShows(env: Env, st: State, me: Party, you: Party, s: Slots)
    requires Holds(env, st, me, you, s)
    ensures s.session == if you.sign in st.peers.sessions then Some(st.peers.sessions[you.sign]) else None
  {
  }

  lemma NowIs(st: State, you: Party, c: Call, s: Session, now: Millis)
    requires CarriesInit(st, you, c, s, now)
    ensures c.TakeInit? && c.now == now
  {
  }

  lemma LetterIs(p: Peers, you: Party, c: Call, s: Session, n: nat)
    requires CarriesLetter(p, you, c, s, n)
    ensures c.TakeLetter?
  {
  }

  /** Every move keeps the two engines and the pair of `Readable` in step. */
  lemma MoveKeeps(env: Env, d: Pair, ps: Parties, m: Move)
    requires Tied(env, d, ps) && Fits(d, ps, m)
    ensures Tied(env, MoveOn(env, d, ps, m), ps) && (m.Carry? ==> Answered(env, d, m))
  {
    hide Apply, Holds, Carries, IsAside, Readable.NetInv, Readable.Act1, Answered;
    var x := Who(m);
    match m
    case Carry(e, c) =>
      Readable.ActKeeps(d.net, KeysOf(ps), e);
      CarryTied(env, d, ps, e, c);
    case Aside(_, c) => AsideTied(env, StateOf(d, x), Of(ps, x), Of(ps, Other(x)), c, Readable.HalfOf(d.net, x).me.slots);
  }

  lemma {:induction false} MovesKeep(env: Env, d: Pair, ps: Parties, ms: seq<Move>)
    requires Tied(env, d, ps) && AllFit(env, d, ps, ms)
    ensures Tied(env, MoveAll(env, d, ps, ms), ps)
    ensures MoveAll(env, d, ps, ms).net == Readable.ActAll(d.net, KeysOf(ps), Acts(ms))
    decreases |ms|
  {
    if ms != [] {
      hide Tied, Fits;
      MoveKeeps(env, d, ps, ms[0]);
      MovesKeep(env, MoveOn(env, d, ps, ms[0]), ps, ms[1..]);
      hide Apply, Readable.Act1;
      if ms[0].Carry? { Cons(ms[0].act, Acts(ms[1..])); } else { Nil(Acts(ms[1..])); }
    }
  }

  // ----- the theorems

  /** Two engines that know nothing of each other, whatever else they hold. */
  predicate Strangers(env: Env, a: State, b: State, ps: Parties) {
    && env.signKey(a.signSeed) == ps.a.sign && env.signKey(b.signSeed) == ps.b.sign && Coherent(a.peers) && Coherent(b.peers)
    && ps.b.sign !in a.peers.sessions && ps.a.sign !in b.peers.sessions
  }

  lemma StartTied(env: Env, a: State, b: State, ps: Parties)
    requires Strangers(env, a, b, ps)
    ensures Tied(env, Pair(a, b, Readable.EMPTY), ps)
  {
    SlotsFit(a.peers, ps.b.sign);
    SlotsFit(b.peers, ps.a.sign);
  }

  /** After any moves, among any other calls of either engine, the next message of the other that is handed to `decrypt` is taken:
      its sender's session was found, whichever slot it is in. */
  lemma EnginesReadEverything(env: Env, a: State, b: State, ps: Parties, ms: seq<Move>, m: Move)
    requires Strangers(env, a, b, ps) && m.Carry?
    requires var d := Pair(a, b, Readable.EMPTY); AllFit(env, d, ps, ms) && Fits(MoveAll(env, d, ps, ms), ps, m)
    ensures Answered(env, MoveAll(env, Pair(a, b, Readable.EMPTY), ps, ms), m)
  {
    var d := Pair(a, b, Readable.EMPTY);
    StartTied(env, a, b, ps);
    MovesKeep(env, d, ps, ms);
    hide Tied, Fits, Answered;
    MoveKeeps(env, MoveAll(env, d, ps, ms), ps, m);
  }

  /** When both engines have initiated and each has taken the other's init, both have a session for the other, and these are the
      same session if and only if the init reached the engine of the smaller key while its own was unanswered and fresh. */
  lemma EnginesAgreeExactly(env: Env, a: State, b: State, ps: Parties, ms: seq<Move>)
    requires Strangers(env, a, b, ps) && ps.a.sign != ps.b.sign && AllFit(env, Pair(a, b, Readable.EMPTY), ps, ms)
    ensures var d := MoveAll(env, Pair(a, b, Readable.EMPTY), ps, ms);
            var x := if Less(ps.a.sign, ps.b.sign) then A else B;
            d.net.a.openings == 1 && d.net.b.openings == 1 && d.net.a.got && d.net.b.got ==>
              && ps.b.sign in d.a.peers.sessions && ps.a.sign in d.b.peers.sessions
              && (d.a.peers.sessions[ps.b.sign].session == d.b.peers.sessions[ps.a.sign].session <==>
                  Readable.StoodFresh(Readable.EMPTY, KeysOf(ps), Acts(ms), x))
  {
    var d := MoveAll(env, Pair(a, b, Readable.EMPTY), ps, ms);
    StartTied(env, a, b, ps);
    MovesKeep(env, Pair(a, b, Readable.EMPTY), ps, ms);
    Readable.PrimariesAgreeExactly(KeysOf(ps), Acts(ms));
    hide MoveAll, AllFit, Acts, Less, Readable.ActAll, Readable.StoodFresh, Coherent, Readable.NetInv;
  }
}
