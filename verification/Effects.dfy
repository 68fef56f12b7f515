/** What each engine call leaves in the five maps, entry by entry, and when it succeeds. */
module Effects {
  import opened Prelude
  import opened Crossing
  import opened EnginePeer
  import opened Payload
  import opened Profile
  import opened EngineOps
  import BrowserEngine
  import Vault

  // ----- encrypt

  /** A peer with a session needs a ratchet that advances; a new one a free place in the table and a verified bundle of the two
      keys that were pinned. */
  predicate MayEncrypt(p: Peers, c: Call)
    requires c.Encrypt?
  {
    if c.peer in p.sessions then c.advance(p.sessions[c.peer]).Some?
    else |p.sessions| < 1024 && c.bundle.Bundle? && c.bundle.sign == c.peer && c.bundle.dh == c.dh && c.bundle.start.Some?
  }

  /** `encrypt` succeeds exactly then. With a session, the peer's ratchet is the advanced one and nothing else changes; without
      one, the new ratchet, our init with its time and the pinned key are written for that peer, and nothing is left of an
      init it lost. A refusal changes nothing. */
  lemma EncryptExactly(env: Env, st: State, c: Call)
    requires c.Encrypt? && Coherent(st.peers)
    ensures var p, k := st.peers, c.peer;
            Apply(env, st, c) ==
            if !MayEncrypt(p, c) then (st, false)
            else if k in p.sessions then (st.(peers := p.(sessions := p.sessions[k := c.advance(p.sessions[k]).value])), true)
            else
              var (r, dh) := c.bundle.start.value;
              (st.(peers := Peers(p.sessions[k := r], p.dhs[k := c.dh], p.lost - {k}, p.own[k := OwnInit(dh, c.now)], p.alts)), true)
  {
    SlotsFit(st.peers, c.peer);
    BrowserEngine.Unchanged(st.peers, c.peer);
    hide Coherent;
  }

  // ----- decrypt of an init

  /** Our own init to the sender is unanswered and less than a minute old, and our signing key is the smaller one. */
  predicate OursHolds(env: Env, st: State, c: Call)
    requires c.TakeInit?
  {
    var p, k := st.peers, c.init.sign;
    && k in p.own && k in p.sessions && k !in p.lost
    && -60_000 < c.now - p.own[k].ts < 60_000 && Less(env.signKey(st.signSeed), k)
  }

  /** The sender is who the relay named and has the pinned key, if any, and there is a place for its session. */
  predicate MayTakeInit(env: Env, st: State, c: Call)
    requires c.TakeInit?
  {
    && (c.from == None || c.from == Some(c.init.sign)) && (c.pinned == None || c.pinned == Some(c.init.dh))
    && (OursHolds(env, st, c) || c.init.sign in st.peers.sessions || |st.peers.sessions| < 1024)
  }

  lemma GuardsAre(env: Env, st: State, c: Call)
    requires c.TakeInit?
    ensures OursHolds(env, st, c) <==> Stands(env, st, c)
    ensures MayTakeInit(env, st, c) <==> !Mismatch(c) && (Stands(env, st, c) || !Full(st.peers, c.init.sign))
  {
    hide Less;
  }

  /** The session that was there goes in front of those kept for late letters, of which there are three at most. */
  function Shifted(p: Peers, k: Key): map<Key, seq<Ratchet>> {
    if k !in p.sessions then p.alts
    else
      var kept := if k !in p.alts then [] else if |p.alts[k]| < 3 then p.alts[k] else p.alts[k][..2];
      p.alts[k := [p.sessions[k]] + kept]
  }

  /** The maps after an init that was let in and derived `r`. */
  function AfterInit(p: Peers, k: Key, dh: Key, r: Option<Ratchet>, holds: bool): Peers {
    if r.None? then if holds then p else p.(own := p.own - {k}, lost := p.lost - {k})
    else if holds then p.(lost := p.lost[k := r.value], dhs := p.dhs[k := dh])
    else Peers(p.sessions[k := r.value], p.dhs[k := dh], p.lost - {k}, p.own - {k}, Shifted(p, k))
  }

  lemma ShiftedIs(p: Peers, k: Key)
    requires Coherent(p)
    ensures (if k in p.sessions then p.alts[k := PushAlternate(ListOf(p.alts, k), Some(p.sessions[k]))] else p.alts) == Shifted(p, k)
  {
    assert k in p.alts ==> ListOk(p.alts[k]);
    hide Coherent;
    if k in p.sessions && k in p.alts && |p.alts[k]| == 3 {
      assert ([p.sessions[k]] + p.alts[k])[..3] == [p.sessions[k]] + p.alts[k][..2];
    }
  }

  lemma InitShape(env: Env, st: State, c: Call, r: Option<Ratchet>)
    requires c.TakeInit? && Coherent(st.peers)
    ensures var p, k, holds := st.peers, c.init.sign, Stands(env, st, c);
            && WithSlots(p, k, SlotsOf(p, k).(own := None, lost := None), Get(p.dhs, k)) == p.(own := p.own - {k}, lost := p.lost - {k})
            && (r.Some? ==>
                  WithSlots(p, k, InitTaken(SlotsOf(p, k), r.value, c.now, holds), Some(c.init.dh)) == AfterInit(p, k, c.init.dh, r, holds))
  {
    hide Stands, SlotsOf, WithSlots, InitTaken, Shifted, Coherent;
    var p, k := st.peers, c.init.sign;
    BrowserEngine.InitsDropped(p, k);
    if r.Some? {
      if Stands(env, st, c) {
        BrowserEngine.LostTaken(env, st, c, r.value);
      } else {
        BrowserEngine.SessionTaken(p, k, r.value, c.init.dh, c.now);
        ShiftedIs(p, k);
      }
    }
  }

  /** An init that is let in and opens is kept beside our session if ours holds, and replaces it otherwise; one that does not open
      leaves only the prekey pool, and outside a held crossing the peer's own and lost inits, changed. Any other is refused and
      changes nothing. */
  lemma InitExactly(env: Env, st: State, c: Call)
    requires c.TakeInit? && Coherent(st.peers)
    ensures var (r, pool) := Accept(st.prekeys, c.init, c.supply);
            Apply(env, st, c) ==
            if !MayTakeInit(env, st, c) then (st, false)
            else
              (st.(peers := AfterInit(st.peers, c.init.sign, c.init.dh, r, OursHolds(env, st, c)), prekeys := pool),
               r.Some? && c.readable)
  {
    GuardsAre(env, st, c);
    InitShape(env, st, c, Accept(st.prekeys, c.init, c.supply).0);
    hide Accept, OursHolds, Stands, Mismatch, Full, MayTakeInit, Coherent, SlotsOf, WithSlots, InitTaken, Shifted;
  }

  /** What an init derives, and what it leaves of the pool: without a one-time prekey the pool is not touched; one that is not in
      the pool, or with which the init does not open, changes nothing; otherwise the ratchet is lost only if a secret for the
      refill is missing. */
  lemma AcceptExactly(p: Prekeys, m: InitMessage, supply: nat -> Option<Key>)
    requires PoolOk(p)
    ensures m.oneTime.None? ==> Accept(p, m, supply) == (m.respond(None), p)
    ensures m.oneTime.Some? && !InPool(p, m.oneTime.value) ==> Accept(p, m, supply) == (None, p)
    ensures forall i :: 0 <= i < |p.otks| && m.oneTime == Some(p.otks[i].id) ==>
              var r := m.respond(Some(p.otks[i].secret));
              && (r.None? ==> Accept(p, m, supply) == (None, p))
              && (r.Some? ==> Accept(p, m, supply).0 == if forall j :: |p.otks| - 1 <= j < 20 ==> supply(j).Some? then r else None)
  {
    if m.oneTime.Some? && Position(p.otks, m.oneTime.value) < |p.otks| && Took(p, m) {
      AcceptTakes(p, m, supply);
      IssuedIsSupplied(p, m, supply);
      SuppliedAll(supply, |p.otks| - 1);
    }
    hide Refill, Supplied;
  }

  lemma {:induction false} SuppliedAll(supply: nat -> Option<Key>, from: nat)
    requires from <= 20
    ensures Supplied(supply, from) <= 20 - from
    ensures Supplied(supply, from) == 20 - from <==> forall j :: from <= j < 20 ==> supply(j).Some?
    decreases 20 - from
  {
    if from < 20 { SuppliedAll(supply, from + 1); }
  }

  // ----- decrypt of a letter

  /** No ratchet kept for this peer opens the letter. */
  predicate Shut(p: Peers, k: Key, dh: Key, open: (Key, Ratchet) -> Option<Ratchet>) {
    && (k in p.sessions ==> open(dh, p.sessions[k]).None?) && (k in p.lost ==> open(dh, p.lost[k]).None?)
    && (k in p.alts ==> forall i :: 0 <= i < |p.alts[k]| ==> open(dh, p.alts[k][i]).None?)
  }

  /** The first ratchet that opens a letter, of the session, the lost init and the alternates in this order, is the one that
      advances; only the session's answers our own init. */
  lemma ReadExactly(p: Peers, k: Key, dh: Key, open: (Key, Ratchet) -> Option<Ratchet>)
    requires Coherent(p)
    ensures var r := ReadFrom(p, k, dh, open);
            var primary, lost := k in p.sessions && open(dh, p.sessions[k]).Some?, k in p.lost && open(dh, p.lost[k]).Some?;
            && (r.None? <==> Shut(p, k, dh, open))
            && (primary ==> r == Some(p.(sessions := p.sessions[k := open(dh, p.sessions[k]).value], own := p.own - {k})))
            && (!primary && lost ==> r == Some(p.(lost := p.lost[k := open(dh, p.lost[k]).value])))
            && (!primary && !lost && k in p.alts ==>
                  forall i :: 0 <= i < |p.alts[k]| && open(dh, p.alts[k][i]).Some? && (forall j :: 0 <= j < i ==> open(dh, p.alts[k][j]).None?) ==>
                    r == Some(p.(alts := p.alts[k := p.alts[k][i := open(dh, p.alts[k][i]).value]])))
  {
    assert k in p.alts ==> ListOk(p.alts[k]);
    hide WithSlots, AlternateRead, Coherent;
    var attempt: Attempt := r => open(dh, r);
    FirstIs(ListOf(p.alts, k), attempt);
    if k in p.sessions && attempt(p.sessions[k]).Some? { SlotsWritten(p, k, attempt(p.sessions[k]).value, []); }
    if k in p.lost && attempt(p.lost[k]).Some? { SlotsWritten(p, k, attempt(p.lost[k]).value, []); }
    if k in p.alts {
      AlternateReadSize(p.alts[k], attempt);
      var read := AlternateRead(p.alts[k], attempt);
      if read.Some? { SlotsWritten(p, k, p.alts[k][0], read.value); }
    }
  }

  /** One slot written back is one entry of one map written. */
  lemma SlotsWritten(p: Peers, k: Key, r: Ratchet, alts: seq<Ratchet>)
    requires Coherent(p)
    ensures var s, dh := SlotsOf(p, k), Get(p.dhs, k);
            && WithSlots(p, k, s.(session := Some(r), own := None), dh) == p.(sessions := p.sessions[k := r], own := p.own - {k})
            && WithSlots(p, k, s.(lost := Some(r)), dh) == p.(lost := p.lost[k := r])
            && (alts != [] ==> WithSlots(p, k, s.(alts := alts), dh) == p.(alts := p.alts[k := alts]))
  {
    BrowserEngine.Unchanged(p, k);
    hide Coherent;
  }

  lemma FirstIs(alts: seq<Ratchet>, attempt: Attempt)
    ensures AlternateRead(alts, attempt).None? <==> forall i :: 0 <= i < |alts| ==> attempt(alts[i]).None?
    ensures forall i :: 0 <= i < |alts| && attempt(alts[i]).Some? && (forall j :: 0 <= j < i ==> attempt(alts[j]).None?) ==>
              AlternateRead(alts, attempt) == Some(alts[i := attempt(alts[i]).value])
  {
    var i := FirstOpen(alts, attempt);
    BrowserEngine.FirstThatOpens(alts, attempt, i);
  }

  ghost function FirstOpen(alts: seq<Ratchet>, attempt: Attempt): (i: nat)
    ensures i <= |alts| && (forall j :: 0 <= j < i ==> attempt(alts[j]).None?) && (i < |alts| ==> attempt(alts[i]).Some?)
  {
    if alts == [] || attempt(alts[0]).Some? then 0 else 1 + FirstOpen(alts[1..], attempt)
  }

  /** A letter without a sender goes to the first peer of the walk one of whose ratchets opens it. */
  lemma {:induction false} SearchExactly(p: Peers, order: seq<Key>, open: (Key, Ratchet) -> Option<Ratchet>, i: nat)
    requires Coherent(p) && i <= |order|
    requires forall j :: 0 <= j < i && order[j] in p.dhs ==> Shut(p, order[j], p.dhs[order[j]], open)
    requires i < |order| ==> order[i] in p.dhs && !Shut(p, order[i], p.dhs[order[i]], open)
    ensures Search(p, order, open) == if i < |order| then ReadFrom(p, order[i], p.dhs[order[i]], open) else None
    decreases |order|
  {
    hide Coherent, ReadFrom, Shut;
    if order != [] {
      if order[0] in p.dhs { ReadExactly(p, order[0], p.dhs[order[0]], open); }
      if i > 0 { SearchExactly(p, order[1..], open, i - 1); }
    }
  }

  /** With a sender, the key its letter is bound to is the one pinned by the caller, or else the one on record. */
  lemma LetterExactly(env: Env, st: State, c: Call)
    requires c.TakeLetter?
    ensures var p := st.peers;
            var found :=
              if c.from.None? then Search(p, c.order, c.open)
              else if c.pinned.Some? then ReadFrom(p, c.from.value, c.pinned.value, c.open)
              else if c.from.value in p.dhs then ReadFrom(p, c.from.value, p.dhs[c.from.value], c.open)
              else None;
            Apply(env, st, c) == if found.None? then (st, false) else (st.(peers := found.value), c.readable)
  {
    hide Search, ReadFrom;
  }

  // ----- the other calls

  /** Nothing is left of a forgotten peer, and the others keep all they had. */
  lemma ForgetExactly(env: Env, st: State, k: Key)
    ensures var p := st.peers;
            Apply(env, st, ForgetPeer(k)) ==
            (st.(peers := Peers(p.sessions - {k}, p.dhs - {k}, p.lost - {k}, p.own - {k}, p.alts - {k})), true)
  {
  }

  /** The password changes if and only if the old one is legal and unwraps to the vault's key and the new one is legal; the new
      one then opens the vault, together with the passkeys there were. Otherwise the candidate is as it was. */
  lemma PasswordExactly(env: Env, st: State, c: Call)
    requires c.ChangePassword?
    ensures var (t, ok) := Apply(env, st, c);
            var v := st.vault;
            && (ok <==>
                  && 1 <= |c.was| <= 4096 && 1 <= |c.pass| <= 4096
                  && Vault.Unwrap(env.crypto, env.crypto.passwordKey(c.was, v.header.salt), v.header.password, Vault.PasswordAad(v.header)) == Some(v.key))
            && (!ok ==> t == st) && t == st.(vault := t.vault)
            && (ok ==> t.vault.key == v.key && t.vault.generation == v.generation && t.vault.header.profile == v.header.profile
                       && forall prfs :: Vault.CipherLaws(env.crypto) && Vault.Sound(env.crypto, v, c.was, prfs) ==>
                            Vault.Sound(env.crypto, t.vault, c.pass, prfs))
  {
    var v := st.vault;
    Vault.ChangePasswordExactly(env.crypto, v, c.was, c.pass, c.salt, c.nonce);
    hide Vault.ChangePassword, Vault.Unwrap, Vault.PasswordAad, Vault.Sound, Vault.CipherLaws;
    forall prfs | Vault.CipherLaws(env.crypto) && Vault.Sound(env.crypto, v, c.was, prfs) && Apply(env, st, c).1
      ensures Vault.Sound(env.crypto, Apply(env, st, c).0.vault, c.pass, prfs)
    {
      Vault.ChangePasswordSound(env.crypto, v, c.was, c.pass, c.salt, c.nonce, prfs);
    }
  }

  /** A passkey is enrolled if and only if there is room, its names and its PRF output are in bounds, and it is new; what opened
      the vault still does, and so does the new passkey. Otherwise the candidate is as it was. */
  lemma PasskeyExactly(env: Env, st: State, c: Call)
    requires c.EnrollPasskey?
    ensures var (t, ok) := Apply(env, st, c);
            var v := st.vault;
            && (ok <==>
                  && |v.header.passkeys| < 8 && 1 <= |c.rp| <= 253 && 1 <= |c.credential| <= 1024 && |c.prf| == 32
                  && forall i :: 0 <= i < |v.header.passkeys| ==> v.header.passkeys[i].credential != c.credential)
            && (!ok ==> t == st) && t == st.(vault := t.vault)
            && (ok ==> t.vault.key == v.key && t.vault.generation == v.generation && t.vault.header.profile == v.header.profile
                       && forall pass, prfs :: Vault.CipherLaws(env.crypto) && Vault.Sound(env.crypto, v, pass, prfs) ==>
                            Vault.Sound(env.crypto, t.vault, pass, prfs + [c.prf]))
  {
    var v := st.vault;
    Vault.EnrollExactly(env.crypto, v, c.credential, c.rp, c.salt, c.prf, c.nonce);
    hide Vault.EnrollPasskey, Vault.Sound, Vault.CipherLaws;
    forall pass, prfs | Vault.CipherLaws(env.crypto) && Vault.Sound(env.crypto, v, pass, prfs) && Apply(env, st, c).1
      ensures Vault.Sound(env.crypto, Apply(env, st, c).0.vault, pass, prfs + [c.prf])
    {
      Vault.EnrollSound(env.crypto, v, pass, prfs, c.credential, c.rp, c.salt, c.prf, c.nonce);
    }
  }

  // ----- peers the call is not about

  /** The peer a call is about, if it names one. */
  function About(c: Call): Option<Key> {
    match c
    case Encrypt(k, _, _, _, _) => Some(k)
    case TakeInit(_, _, m, _, _, _) => Some(m.sign)
    case TakeLetter(from, _, _, _, _) => from
    case ForgetPeer(k) => Some(k)
    case _ => None
  }

  predicate Same(p: Peers, q: Peers, k: Key) { SlotsOf(p, k) == SlotsOf(q, k) && Get(p.dhs, k) == Get(q.dhs, k) }

  lemma WithSlotsElsewhere(p: Peers, k: Key, s: Slots, dh: Option<Key>, j: Key)
    requires j != k
    ensures Same(p, WithSlots(p, k, s, dh), j)
  {
  }

  lemma {:induction false} SearchElsewhere(p: Peers, order: seq<Key>, open: (Key, Ratchet) -> Option<Ratchet>, k: Key)
    requires Coherent(p) && (k in p.dhs ==> Shut(p, k, p.dhs[k], open))
    ensures Search(p, order, open).Some? ==> Same(p, Search(p, order, open).value, k)
    decreases |order|
  {
    hide Coherent, Same, Shut;
    if order != [] {
      var j := order[0];
      if j in p.dhs { ReadElsewhere(p, j, p.dhs[j], open, k); }
      hide ReadFrom;
      SearchElsewhere(p, order[1..], open, k);
    }
  }

  lemma ReadElsewhere(p: Peers, j: Key, dh: Key, open: (Key, Ratchet) -> Option<Ratchet>, k: Key)
    requires Coherent(p) && (j == k ==> Shut(p, k, dh, open))
    ensures ReadFrom(p, j, dh, open).Some? ==> Same(p, ReadFrom(p, j, dh, open).value, k)
  {
    hide Same, WithSlots, Coherent, Shut, LetterRead, SlotsOf;
    ReadExactly(p, j, dh, open);
    if j != k && ReadFrom(p, j, dh, open).Some? {
      WithSlotsElsewhere(p, j, LetterRead(SlotsOf(p, j), r => open(dh, r)).value, Get(p.dhs, j), k);
    }
  }

  lemma AfterInitElsewhere(p: Peers, k: Key, dh: Key, r: Option<Ratchet>, holds: bool, j: Key)
    requires j != k
    ensures Same(p, AfterInit(p, k, dh, r, holds), j)
  {
  }

  lemma EncryptElsewhere(env: Env, st: State, c: Call, j: Key)
    requires c.Encrypt? && Coherent(st.peers) && j != c.peer
    ensures Same(st.peers, Apply(env, st, c).0.peers, j)
  {
    hide Coherent, Apply;
    EncryptExactly(env, st, c);
  }

  lemma InitElsewhere(env: Env, st: State, c: Call, j: Key)
    requires c.TakeInit? && Coherent(st.peers) && j != c.init.sign
    ensures Same(st.peers, Apply(env, st, c).0.peers, j)
  {
    hide Coherent, Apply, Accept, OursHolds, MayTakeInit, AfterInit;
    InitExactly(env, st, c);
    AfterInitElsewhere(st.peers, c.init.sign, c.init.dh, Accept(st.prekeys, c.init, c.supply).0, OursHolds(env, st, c), j);
  }

  lemma LetterElsewhere(env: Env, st: State, c: Call, k: Key)
    requires c.TakeLetter? && Coherent(st.peers) && c.from != Some(k)
    requires c.from.None? && k in st.peers.dhs ==> Shut(st.peers, k, st.peers.dhs[k], c.open)
    ensures Same(st.peers, Apply(env, st, c).0.peers, k)
  {
    assert Same(st.peers, st.peers, k);
    hide Apply, Same, Coherent, ReadFrom, Search, Shut;
    LetterExactly(env, st, c);
    var p := st.peers;
    if c.from.None? {
      SearchElsewhere(p, c.order, c.open, k);
    } else {
      if c.pinned.Some? { ReadElsewhere(p, c.from.value, c.pinned.value, c.open, k); }
      if c.from.value in p.dhs { ReadElsewhere(p, c.from.value, p.dhs[c.from.value], c.open, k); }
    }
  }

  /** Whatever a call does, the peers it is not about keep what they had, in all five maps; for a letter without a sender these
      are the peers none of whose ratchets opens it. */
  lemma OthersKept(env: Env, st: State, c: Call, k: Key)
    requires Coherent(st.peers) && About(c) != Some(k)
    requires c.TakeLetter? && c.from.None? && k in st.peers.dhs ==> Shut(st.peers, k, st.peers.dhs[k], c.open)
    ensures Same(st.peers, Apply(env, st, c).0.peers, k)
  {
    hide Apply, Same, Coherent, Shut;
    match c
    case Encrypt(_, _, _, _, _) => EncryptElsewhere(env, st, c, k);
    case TakeInit(_, _, _, _, _, _) => InitElsewhere(env, st, c, k);
    case TakeLetter(_, _, _, _, _) => LetterElsewhere(env, st, c, k);
    case ForgetPeer(j) => ForgetElsewhere(env, st, j, k);
    case ChangePassword(_, _, _, _) =>
      PasswordExactly(env, st, c);
      SameAsItself(st.peers, k);
    case EnrollPasskey(_, _, _, _, _) =>
      PasskeyExactly(env, st, c);
      SameAsItself(st.peers, k);
  }

  lemma SameAsItself(p: Peers, k: Key)
    ensures Same(p, p, k)
  {
  }

  lemma ForgetElsewhere(env: Env, st: State, k: Key, j: Key)
    requires j != k
    ensures Same(st.peers, Apply(env, st, ForgetPeer(k)).0.peers, j)
  {
    WithSlotsElsewhere(st.peers, k, NO_SLOTS, None, j);
  }
}
