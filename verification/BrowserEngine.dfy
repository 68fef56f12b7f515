/** `BrowserEngine` as the object it is: committed and candidate state whose maps and prekey pool the calls change. */
module BrowserEngine {
  import opened Prelude
  import opened Crossing
  import opened EnginePeer
  import opened Payload
  import opened Profile
  import opened EngineOps
  import opened Engine
  import Vault

  // ----- loops over the pool and the alternates

  method FindPosition(otks: seq<Otk>, id: I64) returns (i: nat)
    ensures i == Position(otks, id)
  {
    i := 0;
    while i < |otks| && otks[i].id != id
      invariant i <= |otks| && forall j :: 0 <= j < i ==> otks[j].id != id
    {
      i := i + 1;
    }
  }

  /** Tops the pool up to twenty, until a secret cannot be generated; the truncation is dead code for every pool the loader
      admits. */
  method RefillPool(p: Prekeys, supply: nat -> Option<Key>) returns (q: Prekeys, ok: bool)
    ensures (q, ok) == Refill(p, supply)
  {
    q := p;
    while |q.otks| < TARGET_OPK && |q.otks| < MAX_OPK
      invariant Refill(q, supply) == Refill(p, supply)
      decreases TARGET_OPK - |q.otks|
    {
      var secret := supply(|q.otks|);
      if secret.None? { return q, false; }
      var id := q.next;
      q := q.(otks := q.otks + [Otk(id, secret.value)], next := Successor(q.next));
    }
    if |q.otks| > MAX_OPK { q := q.(otks := q.otks[..MAX_OPK]); }
    ok := true;
  }

  method AcceptInit(p: Prekeys, m: InitMessage, supply: nat -> Option<Key>) returns (r: Option<Ratchet>, q: Prekeys)
    ensures (r, q) == Accept(p, m, supply)
  {
    q := p;
    if m.oneTime.None? {
      r := m.respond(None);
      return;
    }
    var i := FindPosition(p.otks, m.oneTime.value);
    if i == |p.otks| { return None, p; }
    r := m.respond(Some(p.otks[i].secret));
    if r.None? { return; }
    var ok;
    q, ok := RefillPool(p.(otks := p.otks[..i] + p.otks[i + 1..]), supply);
    if !ok { r := None; }
  }

  /** The alternates in turn, each on a clone that replaces it only when it opens. */
  method TryAlternates(alts: seq<Ratchet>, attempt: Attempt) returns (r: Option<seq<Ratchet>>)
    ensures r == AlternateRead(alts, attempt)
  {
    for i := 0 to |alts|
      invariant forall j :: 0 <= j < i ==> attempt(alts[j]).None?
    {
      var probe := attempt(alts[i]);
      if probe.Some? {
        FirstThatOpens(alts, attempt, i);
        return Some(alts[i := probe.value]);
      }
    }
    FirstThatOpens(alts, attempt, |alts|);
    return None;
  }

  lemma {:induction false} FirstThatOpens(alts: seq<Ratchet>, attempt: Attempt, i: nat)
    requires i <= |alts| && (forall j :: 0 <= j < i ==> attempt(alts[j]).None?) && (i < |alts| ==> attempt(alts[i]).Some?)
    ensures AlternateRead(alts, attempt) == if i < |alts| then Some(alts[i := attempt(alts[i]).value]) else None
    decreases |alts|
  {
    if i > 0 {
      FirstThatOpens(alts[1..], attempt, i - 1);
      if i < |alts| { assert alts[i := attempt(alts[i]).value] == [alts[0]] + alts[1..][i - 1 := attempt(alts[i]).value]; }
    } else if alts != [] {
      assert alts[0 := attempt(alts[0]).value] == [attempt(alts[0]).value] + alts[1..];
    }
  }

  // ----- map updates and the view from one peer

  lemma SetGet<V>(m: map<Key, V>, k: Key)
    ensures Set(m, k, Get(m, k)) == m
  {
  }

  /** Writing back what was there changes nothing. */
  lemma Unchanged(p: Peers, k: Key)
    requires Coherent(p)
    ensures Set(p.sessions, k, Get(p.sessions, k)) == p.sessions && Set(p.dhs, k, Get(p.dhs, k)) == p.dhs
    ensures Set(p.lost, k, Get(p.lost, k)) == p.lost && Set(p.own, k, Get(p.own, k)) == p.own
    ensures Set(p.alts, k, if ListOf(p.alts, k) == [] then None else Some(ListOf(p.alts, k))) == p.alts
  {
    assert k in p.alts ==> ListOk(p.alts[k]);
    hide Coherent;
    assert Get(p.alts, k) == if ListOf(p.alts, k) == [] then None else Some(ListOf(p.alts, k));
    hide Set, Get, ListOf;
    SetGet(p.sessions, k);
    SetGet(p.dhs, k);
    SetGet(p.lost, k);
    SetGet(p.own, k);
    SetGet(p.alts, k);
  }

  /** A letter tried on the ratchets of one peer, map by map. */
  method ReadPeer(p: Peers, k: Key, dh: Key, open: (Key, Ratchet) -> Option<Ratchet>) returns (r: Option<Peers>)
    requires Coherent(p)
    ensures r == ReadFrom(p, k, dh, open)
  {
    Unchanged(p, k);
    var attempt: Attempt := r => open(dh, r);
    ghost var s := SlotsOf(p, k);
    hide Coherent;
    if k in p.sessions {
      var probe := open(dh, p.sessions[k]);
      if probe.Some? {
        return Some(p.(sessions := p.sessions[k := probe.value], own := p.own - {k}));
      }
    }
    if k in p.lost {
      var probe := open(dh, p.lost[k]);
      if probe.Some? { return Some(p.(lost := p.lost[k := probe.value])); }
    }
    if k in p.alts {
      var alts := TryAlternates(p.alts[k], attempt);
      if alts.Some? {
        AlternateReadSize(p.alts[k], attempt);
        return Some(p.(alts := p.alts[k := alts.value]));
      }
    }
    return None;
  }

  /** A sealed letter, tried on one peer after the other. */
  method SearchPeers(p: Peers, order: seq<Key>, open: (Key, Ratchet) -> Option<Ratchet>) returns (r: Option<Peers>)
    requires Coherent(p)
    ensures r == Search(p, order, open)
  {
    hide Coherent, ReadFrom;
    var i := 0;
    while i < |order|
      invariant i <= |order| && Search(p, order[i..], open) == Search(p, order, open)
    {
      Drops(order, i, 1);
      if order[i] in p.dhs {
        var found := ReadPeer(p, order[i], p.dhs[order[i]], open);
        if found.Some? { return found; }
      }
      i := i + 1;
    }
    return None;
  }

  class BrowserEngine {
    const env: Env
    var committed: Option<State>
    var candidate: Option<Candidate>
    var closed: bool

    function View(): Inner reads this { Inner(committed, candidate, closed) }

    predicate Valid() reads this {
      && (committed.Some? ==> Coherent(committed.value.peers))
      && (candidate.Some? ==> Coherent(candidate.value.state.peers))
    }

    constructor (env: Env, state: State)
      requires Coherent(state.peers)
      ensures Valid() && View() == Inner(Some(state), None, false) && this.env == env
    {
      this.env, committed, candidate, closed := env, Some(state), None, false;
    }

    method Begin() returns (reply: Reply)
      requires Valid()
      modifies this`candidate
      ensures Valid() && (View(), reply) == Engine.Step(env, old(View()), Engine.Event.Begin)
    {
      if closed || candidate.Some? || committed.None? { return Refused; }
      candidate := Some(Candidate(committed.value, None));
      return Done;
    }

    method Rollback()
      requires Valid()
      modifies this`candidate
      ensures Valid() && View() == Engine.Step(env, old(View()), Engine.Event.Rollback).0
    {
      candidate := None;
    }

    method Seal(o: Orders, metadata: Bytes, nonce: Bytes) returns (reply: Reply)
      requires Valid() && (candidate.Some? ==> WalksAll(o, candidate.value.state.peers))
      modifies this`candidate
      ensures Valid() && (View(), reply) == Sealed(env, old(View()), o, metadata, nonce)
    {
      hide WalksAll, Serialise, Vault.SealNext, Coherent;
      if closed || candidate.None? || candidate.value.sealedGen.Some? { return Refused; }
      var st := candidate.value.state;
      var plaintext := Write(env.codec, st, o, metadata);
      var r := Vault.SealNext(env.crypto, st.vault, plaintext, nonce);
      if r.Err? { return Refused; }
      candidate := Some(Candidate(st, Some(r.value.0)));
      return Record(r.value.1);
    }

    method Commit() returns (reply: Reply)
      requires Valid()
      modifies this`candidate, this`committed
      ensures Valid() && (View(), reply) == Committed(old(View()))
    {
      hide Coherent;
      if closed || candidate.None? { return Refused; }
      var c := candidate.value;
      candidate := None;
      if c.sealedGen.None? { return Refused; }
      var v := Vault.Committed(c.state.vault, c.sealedGen.value);
      if v.Err? { return Refused; }
      committed := Some(c.state.(vault := v.value));
      return Done;
    }

    method Encrypt(c: Call) returns (reply: Reply)
      requires Valid() && c.Encrypt?
      modifies this`candidate
      ensures Valid() && (View(), reply) == Mutated(env, old(View()), c)
    {
      if closed || candidate.None? || candidate.value.sealedGen.Some? { return Refused; }
      var st := candidate.value.state;
      var p, k := st.peers, c.peer;
      EncryptKeeps(st, c);
      SlotsFit(p, k);
      Unchanged(p, k);
      hide Coherent, SlotsOf;
      if k in p.sessions {
        var r := c.advance(p.sessions[k]);
        if r.None? { return Refused; }
        p := p.(sessions := p.sessions[k := r.value]);
      } else {
        if |p.sessions| >= MAX_SESSIONS { return Refused; }
        if !c.bundle.Bundle? || c.bundle.sign != k || c.bundle.dh != c.dh || c.bundle.start.None? { return Refused; }
        var (r, dh) := c.bundle.start.value;
        p := p.(own := p.own[k := OwnInit(dh, c.now)]);
        p := p.(lost := p.lost - {k});
        p := p.(dhs := p.dhs[k := c.dh]);
        p := p.(sessions := p.sessions[k := r]);
      }
      candidate := Some(Candidate(st.(peers := p), None));
      return Done;
    }

    /** The maps after an init: the loser of a crossing is only remembered, otherwise the new session takes over. */
    method TakeInit(c: Call) returns (reply: Reply)
      requires Valid() && c.TakeInit?
      modifies this`candidate
      ensures Valid() && (View(), reply) == Mutated(env, old(View()), c)
    {
      hide Coherent, SlotsOf, Accept, Mismatch, Stands, Full, WithSlots;
      if closed || candidate.None? || candidate.value.sealedGen.Some? { return Refused; }
      var st := candidate.value.state;
      InitKeeps(env, st, c);
      var p, k := st.peers, c.init.sign;
      if Mismatch(c) { return Refused; }
      if Stands(env, st, c) {
        var theirs, pool := AcceptInit(st.prekeys, c.init, c.supply);
        if theirs.None? {
          candidate := Some(Candidate(st.(prekeys := pool), None));
          return Refused;
        }
        LostTaken(env, st, c, theirs.value);
        p := p.(lost := p.lost[k := theirs.value]);
        p := p.(dhs := p.dhs[k := c.init.dh]);
        candidate := Some(Candidate(st.(peers := p, prekeys := pool), None));
        return if c.readable then Done else Refused;
      }
      if Full(p, k) { return Refused; }
      var without := p.(own := p.own - {k}, lost := p.lost - {k});
      var theirs, pool := AcceptInit(st.prekeys, c.init, c.supply);
      if theirs.None? {
        InitsDropped(p, k);
        candidate := Some(Candidate(st.(peers := without, prekeys := pool), None));
        return Refused;
      }
      SessionTaken(p, k, theirs.value, c.init.dh, c.now);
      var alts: map<Key, seq<Ratchet>> := without.alts;
      if k in without.sessions { alts := alts[k := PushAlternate(ListOf(alts, k), Some(without.sessions[k]))]; }
      p := Peers(without.sessions[k := theirs.value], without.dhs[k := c.init.dh], without.lost, without.own, alts);
      candidate := Some(Candidate(st.(peers := p, prekeys := pool), None));
      return if c.readable then Done else Refused;
    }

    method TakeLetter(c: Call) returns (reply: Reply)
      requires Valid() && c.TakeLetter?
      modifies this`candidate
      ensures Valid() && (View(), reply) == Mutated(env, old(View()), c)
    {
      hide Coherent, ReadFrom, Search;
      if closed || candidate.None? || candidate.value.sealedGen.Some? { return Refused; }
      var st := candidate.value.state;
      ApplyCoherent(env, st, c);
      var found: Option<Peers>;
      if c.from.Some? {
        var dh := if c.pinned.Some? then c.pinned else Get(st.peers.dhs, c.from.value);
        if dh.None? { return Refused; }
        found := ReadPeer(st.peers, c.from.value, dh.value, c.open);
      } else {
        found := SearchPeers(st.peers, c.order, c.open);
      }
      if found.None? { return Refused; }
      candidate := Some(Candidate(st.(peers := found.value), None));
      return if c.readable then Done else Refused;
    }

    method ForgetPeer(k: Key) returns (reply: Reply)
      requires Valid()
      modifies this`candidate
      ensures Valid() && (View(), reply) == Mutated(env, old(View()), Call.ForgetPeer(k))
    {
      hide Coherent;
      if closed || candidate.None? || candidate.value.sealedGen.Some? { return Refused; }
      var st := candidate.value.state;
      Forgotten(st.peers, k);
      var p := st.peers;
      p := p.(sessions := p.sessions - {k});
      p := p.(dhs := p.dhs - {k});
      p := p.(lost := p.lost - {k});
      p := p.(own := p.own - {k});
      p := p.(alts := p.alts - {k});
      candidate := Some(Candidate(st.(peers := p), None));
      return Done;
    }
  }

  lemma LostTaken(env: Env, st: State, c: Call, r: Ratchet)
    requires c.TakeInit? && Coherent(st.peers) && Stands(env, st, c)
    ensures var p, k := st.peers, c.init.sign;
            p.(lost := p.lost[k := r], dhs := p.dhs[k := c.init.dh]) ==
            WithSlots(p, k, InitTaken(SlotsOf(p, k), r, c.now, true), Some(c.init.dh))
  {
    Unchanged(st.peers, c.init.sign);
    hide Coherent, Less;
  }

  lemma InitsDropped(p: Peers, k: Key)
    requires Coherent(p)
    ensures p.(own := p.own - {k}, lost := p.lost - {k}) == WithSlots(p, k, SlotsOf(p, k).(own := None, lost := None), Get(p.dhs, k))
  {
    Unchanged(p, k);
    hide Coherent;
  }

  lemma SessionTaken(p: Peers, k: Key, r: Ratchet, dh: Key, now: Millis)
    requires Coherent(p)
    ensures var alts := if k in p.sessions then p.alts[k := PushAlternate(ListOf(p.alts, k), Some(p.sessions[k]))] else p.alts;
            Peers(p.sessions[k := r], p.dhs[k := dh], p.lost - {k}, p.own - {k}, alts) ==
            WithSlots(p, k, InitTaken(SlotsOf(p, k), r, now, false), Some(dh))
  {
    Unchanged(p, k);
    hide Coherent;
    var list := PushAlternate(ListOf(p.alts, k), Get(p.sessions, k));
    assert k in p.sessions ==> list != [];
  }
}
