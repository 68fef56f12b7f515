/** No key of a sending chain is used twice: over every history of an engine, the letters of its committed transactions and of
    the one under way are sealed with different sessions or different indexes. */
module Chains {
  import opened Prelude
  import opened Crossing
  import opened EnginePeer
  import opened Profile
  import opened EngineOps
  import opened Effects
  import opened Engine
  import opened History

  /** What a letter was sealed with. */
  datatype ChainKey = ChainKey(session: Session, n: nat)

  /** A letter on a standing session takes the ratchet's next index, the init of a new one its first. */
  function SealedWith(env: Env, st: State, c: Call): seq<ChainKey> {
    if !c.Encrypt? || !Apply(env, st, c).1 then []
    else if c.peer in st.peers.sessions then [ChainKey(st.peers.sessions[c.peer].session, st.peers.sessions[c.peer].sent)]
    else if c.bundle.Bundle? && c.bundle.start.Some? then [ChainKey(c.bundle.start.value.0.session, 0)]
    else []
  }

  function Seals(env: Env): Log<ChainKey> { (st: State, c: Call) => SealedWith(env, st, c) }

  /** The session X3DH sets up in this call, on either side. */
  function Born(st: State, c: Call): set<Session> {
    if c.Encrypt? && c.peer !in st.peers.sessions && c.bundle.Bundle? && c.bundle.start.Some? then {c.bundle.start.value.0.session}
    else if c.TakeInit? && Accept(st.prekeys, c.init, c.supply).0.Some? then {Accept(st.prekeys, c.init, c.supply).0.value.session}
    else {}
  }

  /** Encrypting advances the sending index by one, decrypting never moves it back, neither changes the session, an init uses
      the first index of its session, and every new session is new. */
  ghost predicate Lawful(st: State, c: Call, made: set<Session>) {
    && (c.Encrypt? ==> forall r :: c.advance(r).Some? ==> c.advance(r).value.session == r.session && c.advance(r).value.sent == r.sent + 1)
    && (c.Encrypt? && c.bundle.Bundle? && c.bundle.start.Some? ==> c.bundle.start.value.0.sent == 1)
    && (c.TakeLetter? ==> forall d, r :: c.open(d, r).Some? ==> c.open(d, r).value.session == r.session && c.open(d, r).value.sent >= r.sent)
    && Born(st, c) !! made
  }

  // ----- what every state keeps

  predicate Behind(log: seq<ChainKey>, r: Ratchet) { forall i :: 0 <= i < |log| && log[i].session == r.session ==> log[i].n < r.sent }

  /** Each peer has a session of its own, whose next index lies beyond everything sealed on it. */
  ghost predicate InStep(p: Peers, log: seq<ChainKey>, made: set<Session>) {
    && Coherent(p)
    && (forall i :: 0 <= i < |log| ==> log[i].session in made)
    && (forall k :: k in p.sessions ==> p.sessions[k].session in made && Behind(log, p.sessions[k]))
    && (forall j, k :: j in p.sessions && k in p.sessions && j != k ==> p.sessions[j].session != p.sessions[k].session)
  }

  ghost function InStepFor(made: set<Session>): Rule<ChainKey> { (st: State, log: seq<ChainKey>) => InStep(st.peers, log, made) }

  /** The same peers on the same sessions, no sending index moved back. */
  predicate Onward(m: map<Key, Ratchet>, n: map<Key, Ratchet>) {
    && n.Keys == m.Keys && forall k :: k in m ==> n[k].session == m[k].session && n[k].sent >= m[k].sent
  }

  lemma OnwardInStep(p: Peers, q: Peers, log: seq<ChainKey>, made: set<Session>)
    requires InStep(p, log, made) && Coherent(q) && Onward(p.sessions, q.sessions)
    ensures InStep(q, log, made)
  {
    hide Coherent;
    assert forall k :: k in q.sessions ==> k in p.sessions;
  }

  lemma ReadOnward(p: Peers, k: Key, dh: Key, open: (Key, Ratchet) -> Option<Ratchet>)
    requires Coherent(p)
    requires forall d, r :: open(d, r).Some? ==> open(d, r).value.session == r.session && open(d, r).value.sent >= r.sent
    ensures ReadFrom(p, k, dh, open).Some? ==> Onward(p.sessions, ReadFrom(p, k, dh, open).value.sessions)
  {
    hide ReadFrom, Coherent;
    ReadExactly(p, k, dh, open);
    var r := ReadFrom(p, k, dh, open);
    if r.Some? && !(k in p.sessions && open(dh, p.sessions[k]).Some?) && !(k in p.lost && open(dh, p.lost[k]).Some?) {
      var i := FirstOpen(ListOf(p.alts, k), x => open(dh, x));
      assert k in p.alts && i < |p.alts[k]|;
    }
  }

  lemma {:induction false} SearchOnward(p: Peers, order: seq<Key>, open: (Key, Ratchet) -> Option<Ratchet>)
    requires Coherent(p)
    requires forall d, r :: open(d, r).Some? ==> open(d, r).value.session == r.session && open(d, r).value.sent >= r.sent
    ensures Search(p, order, open).Some? ==> Onward(p.sessions, Search(p, order, open).value.sessions)
    decreases |order|
  {
    if order != [] {
      if order[0] in p.dhs { ReadOnward(p, order[0], p.dhs[order[0]], open); }
      SearchOnward(p, order[1..], open);
      hide ReadFrom, Onward;
    }
  }

  lemma LetterInStep(env: Env, st: State, c: Call, log: seq<ChainKey>, made: set<Session>)
    requires c.TakeLetter? && Lawful(st, c, made) && InStep(st.peers, log, made)
    ensures InStep(Apply(env, st, c).0.peers, log, made)
  {
    var p := st.peers;
    ApplyCoherent(env, st, c);
    LetterExactly(env, st, c);
    SearchOnward(p, c.order, c.open);
    if c.from.Some? {
      if c.pinned.Some? { ReadOnward(p, c.from.value, c.pinned.value, c.open); }
      if c.from.value in p.dhs { ReadOnward(p, c.from.value, p.dhs[c.from.value], c.open); }
    }
    hide Apply, Search, ReadFrom, Coherent, InStep, Lawful;
    assert Onward(p.sessions, p.sessions);
    OnwardInStep(p, Apply(env, st, c).0.peers, log, made);
  }

  /** One peer's session replaced by a new one. */
  lemma NewInStep(p: Peers, q: Peers, k: Key, r: Ratchet, log: seq<ChainKey>, made: set<Session>)
    requires InStep(p, log, made) && Coherent(q) && q.sessions == p.sessions[k := r] && r.session !in made
    ensures InStep(q, log, made + {r.session})
  {
    hide Coherent;
  }

  lemma MoreMade(p: Peers, log: seq<ChainKey>, made: set<Session>, more: set<Session>)
    requires InStep(p, log, made)
    ensures InStep(p, log, made + more)
  {
    hide Coherent;
  }

  lemma InitInStep(env: Env, st: State, c: Call, log: seq<ChainKey>, made: set<Session>)
    requires c.TakeInit? && Lawful(st, c, made) && InStep(st.peers, log, made)
    ensures InStep(Apply(env, st, c).0.peers, log, made + Born(st, c))
  {
    ApplyCoherent(env, st, c);
    InitExactly(env, st, c);
    hide Apply, Accept, Coherent, InStep, MayTakeInit, OursHolds;
    var p, q := st.peers, Apply(env, st, c).0.peers;
    var r := Accept(st.prekeys, c.init, c.supply).0;
    MoreMade(p, log, made, Born(st, c));
    if MayTakeInit(env, st, c) && r.Some? && !OursHolds(env, st, c) {
      NewInStep(p, q, c.init.sign, r.value, log, made);
    } else {
      assert q.sessions == p.sessions;
      OnwardInStep(p, q, log, made + Born(st, c));
    }
  }

  /** One more letter on the session of one peer, whose ratchet moves past it. */
  lemma AdvanceInStep(p: Peers, q: Peers, k: Key, log: seq<ChainKey>, made: set<Session>)
    requires InStep(p, log, made) && Coherent(q) && k in p.sessions && Distinct(log)
    requires k in q.sessions && q.sessions == p.sessions[k := q.sessions[k]]
    requires q.sessions[k].session == p.sessions[k].session && q.sessions[k].sent == p.sessions[k].sent + 1
    ensures var more := log + [ChainKey(p.sessions[k].session, p.sessions[k].sent)];
            InStep(q, more, made) && Distinct(more)
  {
    hide Coherent;
    var more := log + [ChainKey(p.sessions[k].session, p.sessions[k].sent)];
    assert Behind(log, p.sessions[k]);
    forall j | j in q.sessions ensures Behind(more, q.sessions[j]) {
      assert j in p.sessions && Behind(log, p.sessions[j]);
    }
  }

  /** The first letter of a new session. */
  lemma OpenInStep(p: Peers, q: Peers, k: Key, r: Ratchet, log: seq<ChainKey>, made: set<Session>)
    requires InStep(p, log, made) && Coherent(q) && q.sessions == p.sessions[k := r] && r.session !in made && r.sent == 1 && Distinct(log)
    ensures var more := log + [ChainKey(r.session, 0)];
            InStep(q, more, made + {r.session}) && Distinct(more)
  {
    hide Coherent;
    var more := log + [ChainKey(r.session, 0)];
    forall j | j in q.sessions ensures Behind(more, q.sessions[j]) {
      if j != k { assert Behind(log, p.sessions[j]); }
    }
  }

  lemma EncryptInStep(env: Env, st: State, c: Call, log: seq<ChainKey>, made: set<Session>)
    requires c.Encrypt? && Lawful(st, c, made) && InStep(st.peers, log, made) && Distinct(log)
    ensures var more := log + SealedWith(env, st, c);
            InStep(Apply(env, st, c).0.peers, more, made + Born(st, c)) && Distinct(more)
  {
    assert Coherent(st.peers);
    hide Apply, Coherent, InStep, Distinct;
    ApplyCoherent(env, st, c);
    EncryptExactly(env, st, c);
    var p, q, k := st.peers, Apply(env, st, c).0.peers, c.peer;
    Nil(log);
    if Apply(env, st, c).1 {
      if k in p.sessions {
        AdvanceInStep(p, q, k, log, made);
      } else {
        OpenInStep(p, q, k, c.bundle.start.value.0, log, made);
      }
    } else {
      MoreMade(p, log, made, Born(st, c));
    }
  }

  lemma ForgetInStep(env: Env, st: State, k: Key, log: seq<ChainKey>, made: set<Session>)
    requires InStep(st.peers, log, made)
    ensures InStep(Apply(env, st, ForgetPeer(k)).0.peers, log, made)
  {
    ApplyCoherent(env, st, ForgetPeer(k));
    ForgetExactly(env, st, k);
    hide Coherent, Apply;
  }

  /** Every call keeps the ratchets past what was sealed, and seals with no key a second time. */
  lemma CallInStep(env: Env, st: State, c: Call, log: seq<ChainKey>, made: set<Session>)
    requires Lawful(st, c, made) && InStep(st.peers, log, made) && Distinct(log)
    ensures var more := log + SealedWith(env, st, c);
            InStep(Apply(env, st, c).0.peers, more, made + Born(st, c)) && Distinct(more)
  {
    hide Apply, InStep, Distinct, Lawful;
    Nil(log);
    match c
    case Encrypt(_, _, _, _, _) => EncryptInStep(env, st, c, log, made);
    case TakeInit(_, _, _, _, _, _) => InitInStep(env, st, c, log, made);
    case TakeLetter(_, _, _, _, _) =>
      LetterInStep(env, st, c, log, made);
      MoreMade(Apply(env, st, c).0.peers, log, made, Born(st, c));
    case ForgetPeer(k) =>
      ForgetInStep(env, st, k, log, made);
      MoreMade(Apply(env, st, c).0.peers, log, made, Born(st, c));
    case ChangePassword(_, _, _, _) =>
      PasswordExactly(env, st, c);
      MoreMade(st.peers, log, made, Born(st, c));
    case EnrollPasskey(_, _, _, _, _) =>
      PasskeyExactly(env, st, c);
      MoreMade(st.peers, log, made, Born(st, c));
  }

  // ----- over histories

  /** The sessions made by a call under way; that it is rolled back later does not make them new again. */
  function BornIn(t: Trace<ChainKey>, l: Life): set<Session> {
    if l.Live? && l.ev.Mutate? && Active(t.inner) then Born(t.inner.candidate.value.state, l.ev.call) else {}
  }

  /** Every call of the history is lawful, for the sessions made before it. */
  ghost predicate AllLawful(env: Env, t: Trace<ChainKey>, ls: seq<Life>, made: set<Session>)
    decreases |ls|
  {
    ls != [] ==>
      && (ls[0].Live? && ls[0].ev.Mutate? && Active(t.inner) ==> Lawful(t.inner.candidate.value.state, ls[0].ev.call, made))
      && AllLawful(env, LiveOn(env, Seals(env), t, ls[0]), ls[1..], made + BornIn(t, ls[0]))
  }

  lemma TraceMore(t: Trace<ChainKey>, made: set<Session>, more: set<Session>)
    requires TraceOk(InStepFor(made), t)
    ensures TraceOk(InStepFor(made + more), t)
  {
    hide InStep, Distinct;
    forall st: State, log | InStep(st.peers, log, made) ensures InStep(st.peers, log, made + more) { MoreMade(st.peers, log, made, more); }
  }

  lemma LifeInStep(env: Env, t: Trace<ChainKey>, l: Life, made: set<Session>)
    requires TraceOk(InStepFor(made), t)
    requires l.Live? && l.ev.Mutate? && Active(t.inner) ==> Lawful(t.inner.candidate.value.state, l.ev.call, made)
    ensures TraceOk(InStepFor(made + BornIn(t, l)), LiveOn(env, Seals(env), t, l))
  {
    var rule := InStepFor(made + BornIn(t, l));
    hide InStep, Distinct, Lawful, Apply, SealedWith, Born;
    assert VaultFree(rule);
    assert CallOk(env, Seals(env), rule, t, l) by {
      if l.Live? && l.ev.Mutate? && Active(t.inner) {
        CallInStep(env, t.inner.candidate.value.state, l.ev.call, t.used + t.pending, made);
      }
    }
    hide TraceOk, CallOk, VaultFree, LiveOn;
    TraceMore(t, made, BornIn(t, l));
    LifeTraces(env, Seals(env), rule, t, l);
  }

  lemma {:induction false} LivesInStep(env: Env, t: Trace<ChainKey>, ls: seq<Life>, made: set<Session>)
    requires TraceOk(InStepFor(made), t) && AllLawful(env, t, ls, made)
    ensures var u := LiveAll(env, Seals(env), t, ls); Distinct(u.used + u.pending)
    decreases |ls|
  {
    if ls != [] {
      hide TraceOk, Lawful, BornIn, LiveOn, InStepFor;
      LifeInStep(env, t, ls[0], made);
      LivesInStep(env, LiveOn(env, Seals(env), t, ls[0]), ls[1..], made + BornIn(t, ls[0]));
    }
  }

  /** From any state whose peers have sessions of their own, through any number of transactions, crashes and reopenings: no two
      successful encryptions, of committed transactions or of the one under way, seal with the same session and index. */
  lemma NoIndexTwice(env: Env, start: State, ls: seq<Life>, made: set<Session>)
    requires InStep(start.peers, [], made) && AllLawful(env, Newborn(start), ls, made)
    ensures var t := LiveAll(env, Seals(env), Newborn(start), ls); Distinct(t.used + t.pending)
  {
    assert TraceOk(InStepFor(made), Newborn(start));
    hide InStep, LiveAll, AllLawful;
    LivesInStep(env, Newborn(start), ls, made);
  }
}
