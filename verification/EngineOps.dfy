/** What one call of the browser engine does to the candidate state: `encrypt`, `decrypt`, `forget_peer`, the one-time
    prekey pool and the credential changes. */
module EngineOps {
  import opened Prelude
  import opened Crossing
  import opened EnginePeer
  import opened Payload
  import opened Profile
  import Vault

  const TARGET_OPK := 20

  /** What lies outside the engine: ciphers, encodings, and the public half of a signing seed. */
  datatype Env = Env(crypto: Vault.Crypto, codec: Codec, signKey: Key -> Key)

  /** What X3DH makes of a peer's bundle: the new ratchet and the key its init carries. */
  datatype Bundle = NoBundle | BadBundle | Bundle(sign: Key, dh: Key, start: Option<(Ratchet, Key)>)

  /** An X3DH init, with what the responder derives from it for the one-time prekey it names. */
  datatype InitMessage = InitMessage(sign: Key, dh: Key, oneTime: Option<I64>, respond: Option<Key> -> Option<Ratchet>)

  datatype Call =
    | Encrypt(peer: Key, dh: Key, advance: Ratchet -> Option<Ratchet>, bundle: Bundle, now: Millis)
    | TakeInit(from: Option<Key>, pinned: Option<Key>, init: InitMessage, readable: bool, now: Millis, supply: nat -> Option<Key>)
    | TakeLetter(from: Option<Key>, pinned: Option<Key>, open: (Key, Ratchet) -> Option<Ratchet>, readable: bool, order: seq<Key>)
    | ForgetPeer(peer: Key)
    | ChangePassword(was: Bytes, pass: Bytes, salt: Bytes, nonce: Bytes)
    | EnrollPasskey(credential: Bytes, rp: Bytes, salt: Bytes, prf: Bytes, nonce: Bytes)

  // ----- the maps, seen from one peer

  function Get<V>(m: map<Key, V>, k: Key): Option<V> { if k in m then Some(m[k]) else None }

  function Set<V>(m: map<Key, V>, k: Key, v: Option<V>): map<Key, V> { if v.Some? then m[k := v.value] else m - {k} }

  function SlotsOf(p: Peers, k: Key): Slots { Slots(Get(p.sessions, k), Get(p.own, k), Get(p.lost, k), ListOf(p.alts, k)) }

  function WithSlots(p: Peers, k: Key, s: Slots, dh: Option<Key>): Peers {
    Peers(Set(p.sessions, k, s.session), Set(p.dhs, k, dh), Set(p.lost, k, s.lost), Set(p.own, k, s.own),
          Set(p.alts, k, if s.alts == [] then None else Some(s.alts)))
  }

  // ----- one-time prekeys

  /** `i64::wrapping_add(1)`. */
  function Successor(n: I64): I64 { if n == 0x7FFF_FFFF_FFFF_FFFF then -0x8000_0000_0000_0000 else n + 1 }

  /** `refill_otks`, and whether it got through; `supply` gives the new secrets, or fails to generate one. */
  function Refill(p: Prekeys, supply: nat -> Option<Key>): (Prekeys, bool)
    decreases TARGET_OPK - |p.otks|
  {
    if |p.otks| < TARGET_OPK then
      var secret := supply(|p.otks|);
      if secret.None? then (p, false)
      else Refill(p.(otks := p.otks + [Otk(p.next, secret.value)], next := Successor(p.next)), supply)
    else if |p.otks| > MAX_OPK then (p.(otks := p.otks[..MAX_OPK]), true)
    else (p, true)
  }

  /** Where an id stands in the pool; the pool's length when it is not there. */
  function Position(otks: seq<Otk>, id: I64): (i: nat)
    ensures i <= |otks| && (i < |otks| ==> otks[i].id == id) && (forall j :: 0 <= j < i ==> otks[j].id != id)
  {
    if otks == [] then 0 else if otks[0].id == id then 0 else 1 + Position(otks[1..], id)
  }

  /** The pool without the prekey at `i`. */
  function Without(p: Prekeys, i: nat): Prekeys
    requires i < |p.otks|
  {
    p.(otks := p.otks[..i] + p.otks[i + 1..])
  }

  /** What the init derives from the prekey it names; nothing when the id is unknown or the init does not open. */
  function Derived(p: Prekeys, m: InitMessage): Option<Ratchet> {
    if m.oneTime.None? then m.respond(None)
    else
      var i := Position(p.otks, m.oneTime.value);
      if i == |p.otks| then None else m.respond(Some(p.otks[i].secret))
  }

  /** `accept_x3dh`: the ratchet, if any, and the pool after it. A refill that fails loses the ratchet with the prekey already
      gone. */
  function Accept(p: Prekeys, m: InitMessage, supply: nat -> Option<Key>): (Option<Ratchet>, Prekeys) {
    var r := Derived(p, m);
    if r.None? || m.oneTime.None? then (r, p)
    else
      var (q, ok) := Refill(Without(p, Position(p.otks, m.oneTime.value)), supply);
      (if ok then r else None, q)
  }

  // ----- calls

  function Encrypted(st: State, c: Call): (State, bool)
    requires c.Encrypt?
  {
    var p := st.peers;
    if c.peer in p.sessions then
      var r := c.advance(p.sessions[c.peer]);
      if r.None? then (st, false) else (st.(peers := p.(sessions := p.sessions[c.peer := r.value])), true)
    else if |p.sessions| >= MAX_SESSIONS then (st, false)
    else if !c.bundle.Bundle? || c.bundle.sign != c.peer || c.bundle.dh != c.dh || c.bundle.start.None? then (st, false)
    else
      var (r, dh) := c.bundle.start.value;
      var s := Initiated(SlotsOf(p, c.peer), r, OwnInit(dh, c.now));
      (st.(peers := WithSlots(p, c.peer, s, Some(c.dh))), true)
  }

  predicate Mismatch(c: Call)
    requires c.TakeInit?
  {
    (c.from.Some? && c.from.value != c.init.sign) || (c.pinned.Some? && c.pinned.value != c.init.dh)
  }

  /** Crossed inits, ours fresh and of the smaller key. */
  predicate Stands(env: Env, st: State, c: Call)
    requires c.TakeInit?
  {
    var s := SlotsOf(st.peers, c.init.sign);
    Crossed(s) && Fresh(s.own, c.now) && Less(env.signKey(st.signSeed), c.init.sign)
  }

  predicate Full(p: Peers, k: Key) { k !in p.sessions && |p.sessions| >= MAX_SESSIONS }

  /** `decrypt` of an init. When the init is refused on the second path its peer's own and lost inits are already gone. */
  function InitDecrypted(env: Env, st: State, c: Call): (State, bool)
    requires c.TakeInit?
  {
    var p, k := st.peers, c.init.sign;
    var s, stands := SlotsOf(p, k), Stands(env, st, c);
    if Mismatch(c) || (!stands && Full(p, k)) then (st, false)
    else
      var (r, pool) := Accept(st.prekeys, c.init, c.supply);
      if r.None? then
        if stands then (st.(prekeys := pool), false)
        else (st.(peers := WithSlots(p, k, s.(own := None, lost := None), Get(p.dhs, k)), prekeys := pool), false)
      else
        (st.(peers := WithSlots(p, k, InitTaken(s, r.value, c.now, stands), Some(c.init.dh)), prekeys := pool), c.readable)
  }

  /** One peer's ratchets tried on a letter; `dh` goes into the associated data. */
  function ReadFrom(p: Peers, k: Key, dh: Key, open: (Key, Ratchet) -> Option<Ratchet>): Option<Peers> {
    var s := LetterRead(SlotsOf(p, k), r => open(dh, r));
    if s.None? then None else Some(WithSlots(p, k, s.value, Get(p.dhs, k)))
  }

  /** A sealed letter is tried on every peer, in the order the map of pinned keys is walked. */
  function Search(p: Peers, order: seq<Key>, open: (Key, Ratchet) -> Option<Ratchet>): Option<Peers>
    decreases |order|
  {
    if order == [] then None
    else if order[0] !in p.dhs then Search(p, order[1..], open)
    else
      var found := ReadFrom(p, order[0], p.dhs[order[0]], open);
      if found.Some? then found else Search(p, order[1..], open)
  }

  function LetterDecrypted(st: State, c: Call): (State, bool)
    requires c.TakeLetter?
  {
    var p := st.peers;
    if c.from.Some? then
      var dh := if c.pinned.Some? then c.pinned else Get(p.dhs, c.from.value);
      var found := if dh.None? then None else ReadFrom(p, c.from.value, dh.value, c.open);
      if found.None? then (st, false) else (st.(peers := found.value), c.readable)
    else
      var found := Search(p, c.order, c.open);
      if found.None? then (st, false) else (st.(peers := found.value), c.readable)
  }

  /** The candidate after a call, and whether the call reports success. */
  function Apply(env: Env, st: State, c: Call): (State, bool) {
    match c
    case Encrypt(_, _, _, _, _) => Encrypted(st, c)
    case TakeInit(_, _, _, _, _, _) => InitDecrypted(env, st, c)
    case TakeLetter(_, _, _, _, _) => LetterDecrypted(st, c)
    case ForgetPeer(k) => (st.(peers := WithSlots(st.peers, k, NO_SLOTS, None)), true)
    case ChangePassword(was, pass, salt, nonce) =>
      var r := Vault.ChangePassword(env.crypto, st.vault, was, pass, salt, nonce);
      if r.Err? then (st, false) else (st.(vault := r.value), true)
    case EnrollPasskey(id, rp, salt, prf, nonce) =>
      var r := Vault.EnrollPasskey(env.crypto, st.vault, id, rp, salt, prf, nonce);
      if r.Err? then (st, false) else (st.(vault := r.value), true)
  }

  // ----- every call keeps the maps coherent

  lemma SetCount<V>(m: map<Key, V>, k: Key, v: V)
    ensures |m[k := v]| == |Set(m, k, Some(v))| == if k in m then |m| else |m| + 1
  {
    if k in m { assert m[k := v].Keys == m.Keys; } else { assert m[k := v].Keys == m.Keys + {k}; }
  }

  lemma DropCount<V>(m: map<Key, V>, k: Key)
    ensures |m - {k}| <= |m|
  {
    SubmapIsSmall(m - {k}, m);
  }

  lemma SetKeys<V>(m: map<Key, V>, k: Key, v: Option<V>)
    ensures Set(m, k, v).Keys == if v.Some? then m.Keys + {k} else m.Keys - {k}
  {
  }

  lemma SetWithin<V, W>(m: map<Key, V>, n: map<Key, W>, k: Key, v: Option<V>, w: W)
    requires m.Keys <= n.Keys
    ensures Set(m, k, v).Keys <= Set(n, k, Some(w)).Keys
  {
  }

  lemma ListsKept(m: map<Key, seq<Ratchet>>, k: Key, v: Option<seq<Ratchet>>)
    requires (forall j :: j in m ==> ListOk(m[j])) && (v.Some? ==> ListOk(v.value))
    ensures var q := Set(m, k, v); forall j :: j in q ==> ListOk(q[j])
  {
    hide ListOk;
  }

  /** What the slots of a peer with a session may look like. */
  predicate SlotsOk(s: Slots) { s.session.Some? && |s.alts| <= MAX_ALTERNATES }

  lemma ListOfSome(s: Slots)
    requires SlotsOk(s)
    ensures s.alts == [] || ListOk(s.alts)
  {
  }

  lemma SlotsKept(p: Peers, k: Key, s: Slots, dh: Key)
    requires Coherent(p) && SlotsOk(s) && !Full(p, k)
    ensures Coherent(WithSlots(p, k, s, Some(dh)))
  {
    hide Set, ListOk;
    var alts := if s.alts == [] then None else Some(s.alts);
    SetCount(p.sessions, k, s.session.value);
    SetKeys(p.sessions, k, s.session);
    SetKeys(p.dhs, k, Some(dh));
    SetWithin(p.lost, p.sessions, k, s.lost, s.session.value);
    SetWithin(p.own, p.sessions, k, s.own, s.session.value);
    SetWithin(p.alts, p.sessions, k, alts, s.session.value);
    assert alts.Some? ==> ListOk(alts.value) by { ListOfSome(s); }
    ListsKept(p.alts, k, alts);
  }

  lemma Forgotten(p: Peers, k: Key)
    requires Coherent(p)
    ensures Coherent(WithSlots(p, k, NO_SLOTS, None))
  {
    DropCount(p.sessions, k);
  }

  lemma SlotsFit(p: Peers, k: Key)
    requires Coherent(p)
    ensures var s := SlotsOf(p, k);
            && |s.alts| <= MAX_ALTERNATES && (s.session.Some? <==> k in p.dhs)
            && (s.session.None? ==> s == NO_SLOTS)
  {
    if k !in p.sessions { assert k !in p.own && k !in p.lost && k !in p.alts; }
  }

  lemma {:induction false} AlternateReadSize(alts: seq<Ratchet>, attempt: Attempt)
    ensures AlternateRead(alts, attempt).Some? ==> |AlternateRead(alts, attempt).value| == |alts|
  {
    if alts != [] { AlternateReadSize(alts[1..], attempt); }
  }

  lemma ReadKeeps(p: Peers, k: Key, dh: Key, open: (Key, Ratchet) -> Option<Ratchet>)
    requires Coherent(p)
    ensures ReadFrom(p, k, dh, open).Some? ==> Coherent(ReadFrom(p, k, dh, open).value)
  {
    var s, attempt := SlotsOf(p, k), (r: Ratchet) => open(dh, r);
    SlotsFit(p, k);
    AlternateReadSize(s.alts, attempt);
    var t := LetterRead(s, attempt);
    hide SlotsOf;
    if t.Some? {
      assert s.session.Some? && SlotsOk(t.value);
      hide LetterRead;
      SlotsKept(p, k, t.value, p.dhs[k]);
    }
  }

  lemma {:induction false} SearchKeeps(p: Peers, order: seq<Key>, open: (Key, Ratchet) -> Option<Ratchet>)
    requires Coherent(p)
    ensures Search(p, order, open).Some? ==> Coherent(Search(p, order, open).value)
    decreases |order|
  {
    if order != [] {
      if order[0] in p.dhs { ReadKeeps(p, order[0], p.dhs[order[0]], open); }
      hide ReadFrom;
      SearchKeeps(p, order[1..], open);
    }
  }

  lemma InitKeeps(env: Env, st: State, c: Call)
    requires c.TakeInit? && Coherent(st.peers)
    ensures Coherent(InitDecrypted(env, st, c).0.peers)
  {
    var p, k := st.peers, c.init.sign;
    var s := SlotsOf(p, k);
    SlotsFit(p, k);
    var a := Accept(st.prekeys, c.init, c.supply);
    hide Accept, Stands, SlotsOf;
    if !Mismatch(c) && (Stands(env, st, c) || !Full(p, k)) {
      if Stands(env, st, c) { StandsHasSession(env, st, c); }
      if a.0.Some? {
        SlotsKept(p, k, InitTaken(s, a.0.value, c.now, Stands(env, st, c)), c.init.dh);
      } else if s.session.Some? {
        SlotsKept(p, k, s.(own := None, lost := None), p.dhs[k]);
      } else {
        Forgotten(p, k);
      }
    }
  }

  lemma StandsHasSession(env: Env, st: State, c: Call)
    requires c.TakeInit? && Stands(env, st, c)
    ensures c.init.sign in st.peers.sessions
  {
  }

  lemma EncryptKeeps(st: State, c: Call)
    requires c.Encrypt? && Coherent(st.peers)
    ensures Coherent(Encrypted(st, c).0.peers)
  {
    var p := st.peers;
    SlotsFit(p, c.peer);
    if c.peer in p.sessions {
      var r := c.advance(p.sessions[c.peer]);
      if r.Some? { SetCount(p.sessions, c.peer, r.value); }
    } else if c.bundle.Bundle? && c.bundle.start.Some? && |p.sessions| < MAX_SESSIONS {
      var (r, dh) := c.bundle.start.value;
      hide SlotsOf;
      SlotsKept(p, c.peer, Initiated(SlotsOf(p, c.peer), r, OwnInit(dh, c.now)), c.dh);
    }
  }

  /** Whatever is sent, received or forgotten, and whether or not the call succeeds, the five maps stay coherent. */
  lemma ApplyCoherent(env: Env, st: State, c: Call)
    requires Coherent(st.peers)
    ensures Coherent(Apply(env, st, c).0.peers)
  {
    hide Coherent, WithSlots;
    match c
    case Encrypt(_, _, _, _, _) => EncryptKeeps(st, c);
    case TakeInit(_, _, _, _, _, _) => InitKeeps(env, st, c);
    case TakeLetter(_, _, _, _, _) =>
      SearchKeeps(st.peers, c.order, c.open);
      if c.from.Some? {
        var dh := if c.pinned.Some? then c.pinned else Get(st.peers.dhs, c.from.value);
        if dh.Some? { ReadKeeps(st.peers, c.from.value, dh.value, c.open); }
      }
    case ForgetPeer(k) => Forgotten(st.peers, k);
    case _ =>
  }

  // ----- the pool

  /** At most twenty prekeys with distinct ids, all below the next one to be issued. */
  predicate PoolOk(p: Prekeys) {
    && |p.otks| <= TARGET_OPK
    && (forall i, j :: 0 <= i < j < |p.otks| ==> p.otks[i].id != p.otks[j].id)
    && (forall i :: 0 <= i < |p.otks| ==> p.otks[i].id < p.next)
  }

  predicate InPool(p: Prekeys, id: I64) { exists i :: 0 <= i < |p.otks| && p.otks[i].id == id }

  /** The counter after `k` ids more. */
  function After(n: I64, k: nat): I64
    requires k <= TARGET_OPK
  {
    if n + k < 0x8000_0000_0000_0000 then n + k else n + k - TWO64
  }

  /** The ids a refill issues are the counter's next values, in order. */
  lemma {:induction false} RefillShape(p: Prekeys, supply: nat -> Option<Key>)
    requires |p.otks| <= TARGET_OPK
    ensures var (q, ok) := Refill(p, supply);
            var n := |q.otks| - |p.otks|;
            && 0 <= n <= TARGET_OPK - |p.otks| && (ok <==> |q.otks| == TARGET_OPK)
            && q.next == After(p.next, n)
            && (forall i :: 0 <= i < |p.otks| ==> q.otks[i] == p.otks[i])
            && (forall i :: 0 <= i < n ==> q.otks[|p.otks| + i].id == After(p.next, i))
    decreases TARGET_OPK - |p.otks|
  {
    if |p.otks| < TARGET_OPK && supply(|p.otks|).Some? {
      var r := p.(otks := p.otks + [Otk(p.next, supply(|p.otks|).value)], next := Successor(p.next));
      RefillShape(r, supply);
      var q := Refill(r, supply).0;
      var n := |q.otks| - |p.otks|;
      forall i | 0 <= i < n ensures q.otks[|p.otks| + i].id == After(p.next, i) {
        if i > 0 { assert q.otks[|r.otks| + (i - 1)].id == After(r.next, i - 1); } else { assert q.otks[|p.otks|] == r.otks[|p.otks|]; }
      }
      forall i | 0 <= i < |p.otks| ensures q.otks[i] == p.otks[i] { assert q.otks[i] == r.otks[i]; }
    }
  }

  /** How many ids are issued when the prekey at its position is taken. */
  function Issued(p: Prekeys, q: Prekeys): int { |q.otks| - (|p.otks| - 1) }

  /** An init whose prekey was found and which opened. */
  predicate Took(p: Prekeys, m: InitMessage) { m.oneTime.Some? && Derived(p, m).Some? }

  lemma TookPosition(p: Prekeys, m: InitMessage)
    requires Took(p, m)
    ensures Position(p.otks, m.oneTime.value) < |p.otks|
  {
  }

  /** Accepting takes exactly the named prekey out of the pool and issues the counter's next ids behind the others. */
  lemma AcceptTakes(p: Prekeys, m: InitMessage, supply: nat -> Option<Key>)
    requires PoolOk(p) && Took(p, m)
    ensures var q, at := Accept(p, m, supply).1, Position(p.otks, m.oneTime.value);
            var n := Issued(p, q);
            && at < |p.otks| && p.otks[at].id == m.oneTime.value && |q.otks| <= TARGET_OPK
            && 0 <= n && n <= TARGET_OPK && q.next == After(p.next, n)
            && (forall i :: 0 <= i < |p.otks| - 1 ==> q.otks[i] == p.otks[if i < at then i else i + 1])
            && (forall i :: 0 <= i < n ==> q.otks[|p.otks| - 1 + i].id == After(p.next, i))
            && (Accept(p, m, supply).0.Some? <==> |q.otks| == TARGET_OPK)
  {
    TookPosition(p, m);
    var at := Position(p.otks, m.oneTime.value);
    RefillShape(Without(p, at), supply);
    hide Refill, Position;
  }

  /** How many secrets the supply gives in a row, from this place of the pool up to its last. */
  function Supplied(supply: nat -> Option<Key>, from: nat): nat
    decreases TARGET_OPK - from
  {
    if from < TARGET_OPK && supply(from).Some? then 1 + Supplied(supply, from + 1) else 0
  }

  lemma {:induction false} RefillSupplied(p: Prekeys, supply: nat -> Option<Key>)
    requires |p.otks| <= TARGET_OPK
    ensures |Refill(p, supply).0.otks| == |p.otks| + Supplied(supply, |p.otks|)
    decreases TARGET_OPK - |p.otks|
  {
    if |p.otks| < TARGET_OPK && supply(|p.otks|).Some? {
      RefillSupplied(p.(otks := p.otks + [Otk(p.next, supply(|p.otks|).value)], next := Successor(p.next)), supply);
    }
  }

  lemma IssuedIsSupplied(p: Prekeys, m: InitMessage, supply: nat -> Option<Key>)
    requires PoolOk(p) && Took(p, m)
    ensures Issued(p, Accept(p, m, supply).1) == Supplied(supply, |p.otks| - 1)
  {
    TookPosition(p, m);
    hide Refill, Supplied, Position;
    RefillSupplied(Without(p, Position(p.otks, m.oneTime.value)), supply);
  }

  /** The pool stays in order exactly while the secrets at hand, from the place that falls free up to the last, do not carry the
      counter past its end. */
  lemma PoolKeptExactly(p: Prekeys, m: InitMessage, supply: nat -> Option<Key>)
    requires PoolOk(p) && Took(p, m)
    ensures PoolOk(Accept(p, m, supply).1) <==> p.next + Supplied(supply, |p.otks| - 1) < 0x8000_0000_0000_0000
  {
    AcceptTakes(p, m, supply);
    IssuedIsSupplied(p, m, supply);
    hide Accept, Position, Derived, Supplied;
    var q := Accept(p, m, supply).1;
    var n, k := Issued(p, q), |p.otks| - 1;
    if p.next + n >= 0x8000_0000_0000_0000 {
      var i := 0x7FFF_FFFF_FFFF_FFFF - p.next;
      assert q.otks[k + i].id == After(p.next, i) == 0x7FFF_FFFF_FFFF_FFFF;
    } else {
      forall i | k <= i < |q.otks| ensures q.otks[i].id == p.next + (i - k) { assert q.otks[k + (i - k)].id == After(p.next, i - k); }
    }
  }

  /** A full pool at the counter's last value and one accepted init: the id issued is not below the counter, which is negative
      now. */
  lemma CounterWraps(secret: Key, r: Ratchet)
    ensures var p := Prekeys(1, secret, seq(TARGET_OPK, i requires 0 <= i < TARGET_OPK => Otk(i + 1, secret)), 0x7FFF_FFFF_FFFF_FFFF);
            var (ratchet, q) := Accept(p, InitMessage(secret, secret, Some(1), _ => Some(r)), _ => Some(secret));
            && PoolOk(p) && ratchet == Some(r) && !PoolOk(q)
            && q.next == -0x8000_0000_0000_0000 && InPool(q, 0x7FFF_FFFF_FFFF_FFFF)
  {
    var p := Prekeys(1, secret, seq(TARGET_OPK, i requires 0 <= i < TARGET_OPK => Otk(i + 1, secret)), 0x7FFF_FFFF_FFFF_FFFF);
    var m := InitMessage(secret, secret, Some(1), _ => Some(r));
    var supply: nat -> Option<Key> := _ => Some(secret);
    assert p.otks[0].id == 1;
    assert Position(p.otks, 1) == 0 && Took(p, m);
    assert Supplied(supply, 20) == 0 && Supplied(supply, 19) == 1;
    AcceptTakes(p, m, supply);
    IssuedIsSupplied(p, m, supply);
    PoolKeptExactly(p, m, supply);
    var q := Accept(p, m, supply).1;
    hide Refill, Position, Supplied;
    assert q.otks[19 + 0].id == After(p.next, 0);
  }

  /** Before the counter wraps: what is in the pool afterwards was there before, or is new; the prekey used is gone. */
  lemma AcceptSpends(p: Prekeys, m: InitMessage, supply: nat -> Option<Key>)
    requires PoolOk(p) && Took(p, m) && p.next + Supplied(supply, |p.otks| - 1) < 0x8000_0000_0000_0000
    ensures var q, id := Accept(p, m, supply).1, m.oneTime.value;
            && p.next <= q.next && InPool(p, id) && id < p.next && !InPool(q, id)
            && (forall i :: 0 <= i < |q.otks| ==> InPool(p, q.otks[i].id) || q.otks[i].id >= p.next)
  {
    AcceptTakes(p, m, supply);
    IssuedIsSupplied(p, m, supply);
    hide Accept, Position, Derived, Supplied;
    var q, id, k := Accept(p, m, supply).1, m.oneTime.value, |p.otks| - 1;
    forall i | 0 <= i < |q.otks| ensures q.otks[i].id != id && (InPool(p, q.otks[i].id) || q.otks[i].id >= p.next) {
      if i >= k { assert q.otks[k + (i - k)].id == After(p.next, i - k); }
    }
  }
}
