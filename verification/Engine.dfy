/** The browser engine's transactions: begin, change, seal, commit or roll back, and what opening a sealed record gives. */
module Engine {
  import opened Prelude
  import opened Payload
  import opened Profile
  import opened EngineOps
  import Vault
  import Recovery = Slots

  datatype Candidate = Candidate(state: State, sealedGen: Option<nat>)

  datatype Inner = Inner(committed: Option<State>, candidate: Option<Candidate>, closed: bool)

  datatype Event =
    | Begin | Rollback | Mutate(call: Call) | Seal(orders: Orders, metadata: Bytes, nonce: Bytes) | Commit | Close

  datatype Reply = Done | Refused | Record(bytes: Bytes)

  /** The candidate a mutation may work on: there is one and it is not sealed. */
  predicate Active(e: Inner) { !e.closed && e.candidate.Some? && e.candidate.value.sealedGen.None? }

  function Mutated(env: Env, e: Inner, c: Call): (Inner, Reply) {
    if !Active(e) then (e, Refused)
    else
      var (st, ok) := Apply(env, e.candidate.value.state, c);
      (e.(candidate := Some(Candidate(st, None))), if ok then Done else Refused)
  }

  function Sealed(env: Env, e: Inner, o: Orders, metadata: Bytes, nonce: Bytes): (Inner, Reply) {
    if !Active(e) || !WalksAll(o, e.candidate.value.state.peers) then (e, Refused)
    else
      var st := e.candidate.value.state;
      var r := Vault.SealNext(env.crypto, st.vault, Serialise(env.codec, st, o, metadata), nonce);
      if r.Err? then (e, Refused) else (e.(candidate := Some(Candidate(st, Some(r.value.0)))), Record(r.value.1))
  }

  /** `commit` takes the candidate away first, so an unsealed one is lost. */
  function Committed(e: Inner): (Inner, Reply) {
    if e.closed || e.candidate.None? then (e, Refused)
    else
      var c, without := e.candidate.value, e.(candidate := None);
      if c.sealedGen.None? then (without, Refused)
      else
        var v := Vault.Committed(c.state.vault, c.sealedGen.value);
        if v.Err? then (without, Refused) else (without.(committed := Some(c.state.(vault := v.value))), Done)
  }

  function Step(env: Env, e: Inner, ev: Event): (Inner, Reply) {
    match ev
    case Begin =>
      if e.closed || e.candidate.Some? || e.committed.None? then (e, Refused)
      else (e.(candidate := Some(Candidate(e.committed.value, None))), Done)
    case Rollback => (e.(candidate := None), Done)
    case Mutate(c) => Mutated(env, e, c)
    case Seal(o, metadata, nonce) => Sealed(env, e, o, metadata, nonce)
    case Commit => Committed(e)
    case Close => (Inner(None, None, true), Done)
  }

  function Run(env: Env, e: Inner, evs: seq<Event>): Inner
    decreases |evs|
  {
    if evs == [] then e else Run(env, Step(env, e, evs[0]).0, evs[1..])
  }

  /** `open_password` and `open_passkey` on the record that was chosen. */
  function Open(env: Env, profile: Bytes, credential: Recovery.Credential, bytes: Bytes): Option<(State, Bytes)> {
    var r := Recovery.Open(env.crypto, profile, credential, bytes);
    if r.Err? then None
    else
      var st := Load(env.codec, profile, r.value.0, r.value.1);
      if st.Err? then None else Some(st.value)
  }

  /** `create`: twenty prekeys numbered from 1, no sessions. */
  function NewState(vault: Vault.Vault, sign: Key, dh: Key, client: Bytes, spk: Key, supply: nat -> Key): State {
    var otks := seq(TARGET_OPK, i requires 0 <= i < TARGET_OPK => Otk(i + 1, supply(i)));
    State(vault.header.profile, vault, sign, dh, client, Prekeys(1, spk, otks, TARGET_OPK + 1),
          Peers(map[], map[], map[], map[], map[]))
  }

  // ----- what every event keeps

  ghost predicate EnvLaws(env: Env) { Recovery.Laws(env.crypto) && CodecLaws(env.codec) }

  ghost predicate VaultOk(c: Vault.Crypto, v: Vault.Vault) { exists pass, prfs :: Vault.Sound(c, v, pass, prfs) }

  /** A state the loader accepts and gives back. */
  ghost predicate StateOk(env: Env, st: State) {
    && Coherent(st.peers) && PoolOk(st.prekeys) && env.codec.client(st.client) == Some(st.client)
    && st.profile == st.vault.header.profile && VaultOk(env.crypto, st.vault)
  }

  /** The pool can be filled up and at least `n` more one-time prekeys can be numbered. */
  predicate Room(st: State, n: nat) { st.prekeys.next + (TARGET_OPK - |st.prekeys.otks|) + n < 0x8000_0000_0000_0000 }

  ghost predicate CandidateOk(env: Env, e: Inner, c: Candidate, room: nat) {
    && StateOk(env, c.state) && Room(c.state, room)
    && e.committed.Some? && c.state.vault.generation == e.committed.value.vault.generation
    && (c.sealedGen.Some? ==> c.sealedGen.value == c.state.vault.generation + 1 < TWO64)
  }

  ghost predicate InnerOk(env: Env, e: Inner, room: nat) {
    && (e.committed.Some? ==> StateOk(env, e.committed.value) && Room(e.committed.value, room))
    && (e.candidate.Some? ==> CandidateOk(env, e, e.candidate.value, room))
  }

  lemma NewStateOk(env: Env, profile: Bytes, pass: Bytes, salt: Bytes, key: Bytes, nonce: Bytes,
                   sign: Key, dh: Key, client: Bytes, spk: Key, supply: nat -> Key, room: nat)
    requires EnvLaws(env) && |key| == 32 && Vault.Create(env.crypto, profile, pass, salt, key, nonce).Ok?
    requires env.codec.client(client) == Some(client) && 21 + room < 0x8000_0000_0000_0000
    ensures var v := Vault.Create(env.crypto, profile, pass, salt, key, nonce).value;
            InnerOk(env, Inner(Some(NewState(v, sign, dh, client, spk, supply)), None, false), room)
  {
    hide Vault.Sound, Vault.Create, Vault.CipherLaws, Vault.FormatLaws;
    Vault.CreateSound(env.crypto, profile, pass, salt, key, nonce);
  }

  /** A credential change in the candidate leaves a vault that some password still opens. */
  lemma VaultKept(env: Env, st: State, c: Call)
    requires EnvLaws(env) && VaultOk(env.crypto, st.vault)
    ensures var t := Apply(env, st, c).0;
            && VaultOk(env.crypto, t.vault) && t.vault.generation == st.vault.generation
            && t.vault.header.profile == st.vault.header.profile && t.profile == st.profile && t.client == st.client
  {
    var pass, prfs :| Vault.Sound(env.crypto, st.vault, pass, prfs);
    match c
    case ChangePassword(was, now, salt, nonce) =>
      if Vault.PasswordFits(env.crypto, st.vault, was) {
        assert Vault.Sound(env.crypto, st.vault, was, prfs);
        hide Vault.Sound;
        Vault.ChangePasswordSound(env.crypto, st.vault, was, now, salt, nonce, prfs);
      }
    case EnrollPasskey(id, rp, salt, prf, nonce) =>
      hide Vault.Sound;
      Vault.EnrollSound(env.crypto, st.vault, pass, prfs, id, rp, salt, prf, nonce);
    case _ =>
      hide Vault.Sound;
  }

  /** Whether a call gets as far as accepting an init. */
  predicate Enters(env: Env, st: State, c: Call) {
    c.TakeInit? && !Mismatch(c) && (Stands(env, st, c) || !Full(st.peers, c.init.sign))
  }

  lemma PoolOf(env: Env, st: State, c: Call)
    ensures Apply(env, st, c).0.prekeys == if Enters(env, st, c) then Accept(st.prekeys, c.init, c.supply).1 else st.prekeys
  {
    hide Stands, WithSlots, Accept;
  }

  /** Each call numbers at most one id beyond what fills the pool. */
  lemma PoolKept(env: Env, st: State, c: Call, room: nat)
    requires PoolOk(st.prekeys) && Room(st, room + 1)
    ensures var t := Apply(env, st, c).0; PoolOk(t.prekeys) && Room(t, room)
  {
    PoolOf(env, st, c);
    hide Apply;
    if Enters(env, st, c) && Took(st.prekeys, c.init) {
      AcceptTakes(st.prekeys, c.init, c.supply);
      IssuedIsSupplied(st.prekeys, c.init, c.supply);
      PoolKeptExactly(st.prekeys, c.init, c.supply);
      hide Enters, Took, PoolOk, Accept;
    } else {
      hide Refill;
    }
  }

  lemma ApplyKeeps(env: Env, st: State, c: Call, room: nat)
    requires EnvLaws(env) && StateOk(env, st) && Room(st, room + 1)
    ensures StateOk(env, Apply(env, st, c).0) && Room(Apply(env, st, c).0, room)
  {
    hide Apply, Coherent, PoolOk, VaultOk, EnvLaws;
    VaultKept(env, st, c);
    PoolKept(env, st, c, room);
    ApplyCoherent(env, st, c);
  }

  lemma StepKeeps(env: Env, e: Inner, ev: Event, room: nat)
    requires EnvLaws(env) && InnerOk(env, e, room + 1)
    ensures InnerOk(env, Step(env, e, ev).0, room)
  {
    hide StateOk, Apply;
    match ev
    case Mutate(c) =>
      if Active(e) {
        ApplyKeeps(env, e.candidate.value.state, c, room);
        VaultStays(env, e.candidate.value.state, c);
      }
    case Commit => if e.candidate.Some? { CommitKeepsState(env, e.candidate.value); }
    case _ =>
  }

  lemma VaultStays(env: Env, st: State, c: Call)
    requires EnvLaws(env) && StateOk(env, st)
    ensures Apply(env, st, c).0.vault.generation == st.vault.generation
  {
    hide Apply;
    VaultKept(env, st, c);
  }

  lemma CommitKeepsState(env: Env, c: Candidate)
    requires StateOk(env, c.state)
    ensures c.sealedGen.Some? && Vault.Committed(c.state.vault, c.sealedGen.value).Ok? ==>
              StateOk(env, c.state.(vault := Vault.Committed(c.state.vault, c.sealedGen.value).value))
  {
    hide Coherent, PoolOk;
    var v := c.state.vault;
    if c.sealedGen.Some? && Vault.Committed(v, c.sealedGen.value).Ok? {
      var w := Vault.Committed(v, c.sealedGen.value).value;
      var pass, prfs :| Vault.Sound(env.crypto, v, pass, prfs);
      assert Vault.Sound(env.crypto, w, pass, prfs);
    }
  }

  lemma {:induction false} RunKeeps(env: Env, e: Inner, evs: seq<Event>, room: nat)
    requires EnvLaws(env) && InnerOk(env, e, |evs| + room)
    ensures InnerOk(env, Run(env, e, evs), room)
    decreases |evs|
  {
    if evs != [] {
      hide Step, InnerOk, EnvLaws;
      StepKeeps(env, e, evs[0], |evs| - 1 + room);
      RunKeeps(env, Step(env, e, evs[0]).0, evs[1..], room);
    }
  }

  // ----- every reachable state reopens as itself

  /** Opening `record` gives `st` one generation on, and `metadata`. */
  ghost predicate OpensTo(env: Env, record: Bytes, credential: Recovery.Credential, st: State, metadata: Bytes) {
    Open(env, st.profile, credential, record) == Some((NextGeneration(st), metadata))
  }

  function NextGeneration(st: State): State { st.(vault := st.vault.(generation := st.vault.generation + 1)) }

  ghost predicate Unlocks(env: Env, v: Vault.Vault, pass: Bytes, prfs: seq<Bytes>, credential: Recovery.Credential) {
    Vault.Sound(env.crypto, v, pass, prfs) && Recovery.Fits(v, pass, prfs, credential)
  }

  lemma SealedNumber(c: Vault.Crypto, v: Vault.Vault, text: Bytes, nonce: Bytes)
    requires Vault.SealNext(c, v, text, nonce).Ok?
    ensures var r := Vault.SealNext(c, v, text, nonce);
            r == Ok((v.generation + 1, r.value.1)) && v.generation + 1 < TWO64 && |text| <= MAX_BYTES
  {
    hide Vault.Front;
  }

  lemma SoundHeader(c: Vault.Crypto, v: Vault.Vault, pass: Bytes, prfs: seq<Bytes>)
    requires Vault.Sound(c, v, pass, prfs)
    ensures Vault.HeaderRules(v.header)
  {
  }

  lemma RecordOpens(env: Env, v: Vault.Vault, text: Bytes, nonce: Bytes, pass: Bytes, prfs: seq<Bytes>, credential: Recovery.Credential)
    requires EnvLaws(env) && |nonce| == 24 && Unlocks(env, v, pass, prfs, credential)
    requires Vault.SealNext(env.crypto, v, text, nonce).Ok?
    ensures var record := Vault.SealNext(env.crypto, v, text, nonce).value;
            && record.0 == v.generation + 1 < TWO64 && |text| <= MAX_BYTES
            && Recovery.Open(env.crypto, v.header.profile, credential, record.1) == Ok((v.(generation := v.generation + 1), text))
  {
    hide Vault.HeaderRules, Recovery.Open, Recovery.Fits, Vault.Sound, Recovery.Laws;
    SealedNumber(env.crypto, v, text, nonce);
    SoundHeader(env.crypto, v, pass, prfs);
    hide Vault.SealNext;
    var record := Vault.SealNext(env.crypto, v, text, nonce).value;
    var saved := Recovery.Saved(v, text, nonce, record.1);
    Recovery.RecoversExactly(env.crypto, saved, v.generation, pass, prfs, credential);
  }

  lemma SealedReopens(env: Env, st: State, o: Orders, metadata: Bytes, nonce: Bytes,
                      pass: Bytes, prfs: seq<Bytes>, credential: Recovery.Credential)
    requires EnvLaws(env) && StateOk(env, st) && WalksAll(o, st.peers) && |nonce| == 24
    requires Unlocks(env, st.vault, pass, prfs, credential)
    requires Vault.SealNext(env.crypto, st.vault, Serialise(env.codec, st, o, metadata), nonce).Ok?
    ensures var record := Vault.SealNext(env.crypto, st.vault, Serialise(env.codec, st, o, metadata), nonce).value;
            record.0 == st.vault.generation + 1 < TWO64 && OpensTo(env, record.1, credential, st, metadata)
  {
    hide Vault.HeaderRules, Vault.SealNext, Vault.Sound, Serialise, Recovery.Open, Recovery.Fits, Load, Coherent, WalksAll, Unlocks;
    RecordOpens(env, st.vault, Serialise(env.codec, st, o, metadata), nonce, pass, prfs, credential);
    PoolLoads(st.prekeys);
    StateRoundTrip(env.codec, st, o, metadata, NextGeneration(st).vault);
  }

  lemma PoolLoads(p: Prekeys)
    requires PoolOk(p)
    ensures |p.otks| <= MAX_OPK && Distinct(Ids(p.otks))
  {
    assert forall i :: 0 <= i < |p.otks| ==> Ids(p.otks)[i] == p.otks[i].id;
  }

  /** Sealing now yields a record, and committing installs what that record opens to. */
  ghost predicate ReopensAs(env: Env, e: Inner, o: Orders, metadata: Bytes, nonce: Bytes, credential: Recovery.Credential) {
    var sealed := Sealed(env, e, o, metadata, nonce);
    var after := Committed(sealed.0);
    && sealed.1.Record? && after.1.Done? && after.0.candidate.None? && e.candidate.Some?
    && after.0.committed == Some(NextGeneration(e.candidate.value.state))
    && OpensTo(env, sealed.1.bytes, credential, e.candidate.value.state, metadata)
  }

  lemma SealThenCommit(env: Env, e: Inner, o: Orders, metadata: Bytes, nonce: Bytes,
                       pass: Bytes, prfs: seq<Bytes>, credential: Recovery.Credential)
    requires EnvLaws(env) && InnerOk(env, e, 0) && |nonce| == 24 && Sealed(env, e, o, metadata, nonce).1.Record?
    requires Unlocks(env, e.candidate.value.state.vault, pass, prfs, credential)
    ensures ReopensAs(env, e, o, metadata, nonce, credential)
  {
    hide Unlocks, OpensTo, StateOk, EnvLaws, Serialise, WalksAll, Vault.SealNext;
    SealedReopens(env, e.candidate.value.state, o, metadata, nonce, pass, prfs, credential);
  }

  /** From any good engine, after any events: if sealing yields a record, then opening that record, with the candidate's
      password or any of its passkeys, gives exactly the state and metadata that committing installs, one generation on.
      The bound is how many one-time prekeys can still be numbered. */
  lemma ReopensExactly(env: Env, start: Inner, evs: seq<Event>, o: Orders, metadata: Bytes, nonce: Bytes,
                       pass: Bytes, prfs: seq<Bytes>, credential: Recovery.Credential)
    requires EnvLaws(env) && InnerOk(env, start, |evs|) && |nonce| == 24
    requires Sealed(env, Run(env, start, evs), o, metadata, nonce).1.Record?
    requires Unlocks(env, Run(env, start, evs).candidate.value.state.vault, pass, prfs, credential)
    ensures ReopensAs(env, Run(env, start, evs), o, metadata, nonce, credential)
  {
    hide Run, Unlocks, ReopensAs, InnerOk, EnvLaws, Sealed;
    RunKeeps(env, start, evs, 0);
    SealThenCommit(env, Run(env, start, evs), o, metadata, nonce, pass, prfs, credential);
  }

  /** Sealing yields a record if and only if a transaction is open and not yet sealed, the state printed in the walk's order and
      its header fit, and the counter has a next value; otherwise nothing changes. */
  lemma SealsExactly(env: Env, e: Inner, o: Orders, metadata: Bytes, nonce: Bytes)
    requires e.candidate.Some? ==> WalksAll(o, e.candidate.value.state.peers)
    ensures var (f, reply) := Step(env, e, Seal(o, metadata, nonce));
            && (reply.Record? <==>
                  && !e.closed && e.candidate.Some? && e.candidate.value.sealedGen == None
                  && var st := e.candidate.value.state;
                     && |Put(PayloadOf(env.codec, st, o, metadata))| <= 16 * 1024 * 1024 - 32 * 1024 - 128
                     && st.vault.generation + 1 < 0x1_0000_0000_0000_0000 && |env.crypto.toJson(st.vault.header)| <= 32 * 1024)
            && (!reply.Record? ==> f == e && reply == Refused)
  {
    hide WalksAll, Put, PayloadOf, Vault.SealNext;
    if e.candidate.Some? {
      var st := e.candidate.value.state;
      Vault.SealsExactly(env.crypto, st.vault, Serialise(env.codec, st, o, metadata), nonce);
    }
  }

  // ----- what a transaction cannot touch

  /** Between sealing and committing nothing changes: what was sealed is what commit installs. */
  lemma {:induction false} SealedIsFrozen(env: Env, e: Inner, evs: seq<Event>)
    requires e.candidate.Some? && e.candidate.value.sealedGen.Some?
    requires forall i :: 0 <= i < |evs| ==> !evs[i].Commit? && !evs[i].Rollback? && !evs[i].Close?
    ensures Run(env, e, evs) == e
    decreases |evs|
  {
    if evs != [] {
      hide Apply, Serialise, WalksAll, Vault.SealNext;
      assert Step(env, e, evs[0]) == (e, Refused);
      SealedIsFrozen(env, e, evs[1..]);
    }
  }

  /** Whatever is tried in transactions, only a commit changes the committed state, and only closing forgets it. */
  lemma {:induction false} OnlyCommitInstalls(env: Env, e: Inner, evs: seq<Event>)
    requires forall i :: 0 <= i < |evs| ==> !evs[i].Commit? && !evs[i].Close?
    ensures Run(env, e, evs).committed == e.committed
    decreases |evs|
  {
    if evs != [] {
      hide Apply, Serialise, WalksAll, Vault.SealNext;
      OnlyCommitInstalls(env, Step(env, e, evs[0]).0, evs[1..]);
    }
  }

  /** A closed engine stays closed and holds nothing, and refuses all but closing and rolling back. */
  lemma {:induction false} ClosedForGood(env: Env, e: Inner, evs: seq<Event>, ev: Event)
    ensures var f := Run(env, Step(env, e, Close).0, evs);
            && f == Inner(None, None, true) && Step(env, f, ev).0 == f
            && Step(env, f, ev).1 == if ev.Close? || ev.Rollback? then Done else Refused
    decreases |evs|
  {
    var f := Inner(None, None, true);
    assert Step(env, e, Close).0 == f;
    if evs != [] {
      assert Step(env, f, evs[0]).0 == f;
      ClosedForGood(env, e, evs[1..], ev);
    }
  }

  // ----- transactions that come to nothing

  /** A transaction that is rolled back, or committed without being sealed, gives its prekeys back: the committed state is
      untouched and the next transaction starts from it. */
  lemma RolledBack(env: Env, e: Inner, ev: Event)
    requires ev.Rollback? || (ev.Commit? && Active(e))
    ensures var f := Step(env, e, ev).0;
            && f.committed == e.committed
            && (!e.closed && e.committed.Some? ==> Step(env, f, Begin) == (f.(candidate := Some(Candidate(e.committed.value, None))), Done))
  {
  }
}
