/** An engine through its lives: transactions, crashes and reopenings, and what its committed calls have used up. */
module History {
  import opened Prelude
  import opened Payload
  import opened Profile
  import opened EngineOps
  import opened Engine
  import Vault

  /** A sealed candidate, and what its transaction put on record. */
  datatype Kept<T> = Kept(state: State, log: seq<T>)

  /** The records of the committed transactions and of the one under way, the state on disk, and the candidate sealed since the
      last commit, which may be on disk too. */
  datatype Trace<T> = Trace(inner: Inner, used: seq<T>, pending: seq<T>, disk: Option<State>, tried: Option<Kept<T>>)

  /** An event of the living engine, or its end and its next opening: from the last committed state, or, when that record was
      already complete, from the candidate sealed after it. Two-slot recovery finds one of the two. */
  datatype Life = Live(ev: Event) | Reopen(adopt: bool)

  /** What a call puts on record. */
  type Log<!T> = (State, Call) -> seq<T>

  /** What a state must satisfy for the record of its history. */
  type Rule<!T> = (State, seq<T>) -> bool

  function Follow<T>(env: Env, log: Log<T>, t: Trace<T>, ev: Event): Trace<T> {
    var (e, reply) := Step(env, t.inner, ev);
    var u := t.(inner := e);
    match ev
    case Mutate(c) => u.(pending := t.pending + if Active(t.inner) then log(t.inner.candidate.value.state, c) else [])
    case Seal(_, _, _) => if reply.Record? then u.(tried := Some(Kept(t.inner.candidate.value.state, t.pending))) else u
    case Commit =>
      if reply.Done? then u.(used := t.used + t.pending, pending := [], disk := e.committed, tried := None)
      else u.(pending := if t.inner.closed then t.pending else [])
    case Rollback => u.(pending := [])
    case Close => u.(pending := [])
    case Begin => u
  }

  /** A state in memory and on disk, nothing under way. */
  function Opened<T>(st: State, used: seq<T>): Trace<T> { Trace(Inner(Some(st), None, false), used, [], Some(st), None) }

  function LiveOn<T>(env: Env, log: Log<T>, t: Trace<T>, l: Life): Trace<T> {
    match l
    case Live(ev) => Follow(env, log, t, ev)
    case Reopen(adopt) =>
      if adopt && t.tried.Some? then Opened(NextGeneration(t.tried.value.state), t.used + t.tried.value.log)
      else if t.disk.Some? then Opened(t.disk.value, t.used)
      else t
  }

  function LiveAll<T>(env: Env, log: Log<T>, t: Trace<T>, ls: seq<Life>): Trace<T>
    decreases |ls|
  {
    if ls == [] then t else LiveAll(env, log, LiveOn(env, log, t, ls[0]), ls[1..])
  }

  function Newborn<T>(st: State): Trace<T> { Trace(Inner(Some(st), None, false), [], [], None, None) }

  // ----- a rule kept by every call is kept by every history

  /** Nothing is on record twice, and each state that is, or may become, the engine's obeys the rule for its own history. */
  ghost predicate TraceOk<T(!new)>(rule: Rule<T>, t: Trace<T>) {
    && Distinct(t.used + t.pending)
    && (t.inner.committed.Some? ==> rule(t.inner.committed.value, t.used))
    && (t.inner.candidate.Some? ==> rule(t.inner.candidate.value.state, t.used + t.pending))
    && (t.inner.candidate.None? ==> t.pending == [])
    && (t.disk.Some? ==> rule(t.disk.value, t.used))
    && (t.tried.Some? ==> rule(t.tried.value.state, t.used + t.tried.value.log) && Distinct(t.used + t.tried.value.log))
  }

  /** The rule does not look at the vault. */
  ghost predicate VaultFree<T(!new)>(rule: Rule<T>) {
    forall st, v, log :: rule(st, log) ==> rule(st.(vault := v), log)
  }

  /** The call under way keeps the rule, and puts nothing on record a second time. */
  ghost predicate CallOk<T(!new)>(env: Env, log: Log<T>, rule: Rule<T>, t: Trace<T>, l: Life) {
    l.Live? && l.ev.Mutate? && Active(t.inner) ==>
      var st, c := t.inner.candidate.value.state, l.ev.call;
      var more := (t.used + t.pending) + log(st, c);
      Distinct(more) && rule(Apply(env, st, c).0, more)
  }

  lemma DistinctPart<T>(log: seq<T>, more: seq<T>)
    requires Distinct(log + more)
    ensures Distinct(log) && Distinct(log + [])
  {
    assert forall i :: 0 <= i < |log| ==> (log + more)[i] == log[i];
    Nil(log);
  }

  lemma CommitTraces<T(!new)>(env: Env, log: Log<T>, rule: Rule<T>, t: Trace<T>)
    requires TraceOk(rule, t) && VaultFree(rule)
    ensures TraceOk(rule, Follow(env, log, t, Commit))
  {
    hide Distinct, Vault.Committed;
    Nil(t.used);
    Nil(t.used + t.pending);
    DistinctPart(t.used, t.pending);
  }

  lemma FollowTraces<T(!new)>(env: Env, log: Log<T>, rule: Rule<T>, t: Trace<T>, ev: Event)
    requires TraceOk(rule, t) && VaultFree(rule) && CallOk(env, log, rule, t, Live(ev))
    ensures TraceOk(rule, Follow(env, log, t, ev))
  {
    hide Apply, Serialise, WalksAll, Vault.SealNext, Distinct, VaultFree;
    DistinctPart(t.used, t.pending);
    Nil(t.used);
    Nil(t.pending);
    match ev
    case Mutate(c) => if Active(t.inner) { Assoc(t.used, t.pending, log(t.inner.candidate.value.state, c)); }
    case Commit => CommitTraces(env, log, rule, t);
    case _ =>
  }

  lemma LifeTraces<T(!new)>(env: Env, log: Log<T>, rule: Rule<T>, t: Trace<T>, l: Life)
    requires TraceOk(rule, t) && VaultFree(rule) && CallOk(env, log, rule, t, l)
    ensures TraceOk(rule, LiveOn(env, log, t, l))
  {
    match l
    case Live(ev) =>
      hide TraceOk, VaultFree, CallOk, Follow;
      FollowTraces(env, log, rule, t, ev);
    case Reopen(_) =>
      hide Distinct;
      DistinctPart(t.used, t.pending);
      Nil(t.used);
      if t.tried.Some? { Nil(t.used + t.tried.value.log); }
  }

  // ----- every state stays good

  ghost predicate StoredOk(env: Env, st: State, room: nat) { StateOk(env, st) && Room(st, room) }

  ghost predicate StatesOk<T(!new)>(env: Env, t: Trace<T>, room: nat) {
    && InnerOk(env, t.inner, room)
    && (t.disk.Some? ==> StoredOk(env, t.disk.value, room))
    && (t.tried.Some? ==> StoredOk(env, t.tried.value.state, room) && t.tried.value.state.vault.generation + 1 < TWO64)
  }

  lemma FollowStates<T(!new)>(env: Env, log: Log<T>, t: Trace<T>, ev: Event, room: nat)
    requires EnvLaws(env) && StatesOk(env, t, room + 1)
    ensures StatesOk(env, Follow(env, log, t, ev), room)
  {
    hide EnvLaws, StateOk, Mutated, Serialise, WalksAll, Vault.SealNext, Vault.Committed;
    StepKeeps(env, t.inner, ev, room);
    if ev.Seal? && Step(env, t.inner, ev).1.Record? {
      var e := Step(env, t.inner, ev).0;
      assert e.candidate.Some? && e.candidate.value.state == t.inner.candidate.value.state && e.candidate.value.sealedGen.Some?;
    }
    assert ev.Commit? && Step(env, t.inner, ev).1.Done? ==> Step(env, t.inner, ev).0.committed.Some?;
    hide Step;
  }

  lemma NextOk(env: Env, st: State)
    requires StateOk(env, st)
    ensures st.vault.generation + 1 < TWO64 ==> StateOk(env, NextGeneration(st))
  {
    CommitKeepsState(env, Candidate(st, Some(st.vault.generation + 1)));
    hide StateOk;
  }

  lemma LifeStates<T(!new)>(env: Env, log: Log<T>, t: Trace<T>, l: Life, room: nat)
    requires EnvLaws(env) && StatesOk(env, t, room + 1)
    ensures StatesOk(env, LiveOn(env, log, t, l), room)
  {
    match l {
      case Live(ev) =>
        hide EnvLaws, StatesOk, Follow;
        FollowStates(env, log, t, ev, room);
      case Reopen(_) =>
        hide StateOk, EnvLaws;
        if t.tried.Some? { NextOk(env, t.tried.value.state); }
    }
  }

  // ----- one-time prekeys are accepted at most once

  /** The id of the prekey an accepted init uses. */
  function UsedId(env: Env, st: State, c: Call): seq<I64> {
    if Enters(env, st, c) && Accept(st.prekeys, c.init, c.supply).0.Some? && c.init.oneTime.Some? then [c.init.oneTime.value] else []
  }

  function UsedIds(env: Env): Log<I64> { (st: State, c: Call) => UsedId(env, st, c) }

  /** Ids that were used are numbered already and no longer in the pool. */
  predicate Spent(p: Prekeys, ids: seq<I64>) { forall i :: 0 <= i < |ids| ==> ids[i] < p.next && !InPool(p, ids[i]) }

  const SPENT: Rule<I64> := (st: State, ids: seq<I64>) => Spent(st.prekeys, ids)

  /** A pool that lost `id` and gained only new ids has spent it too. */
  lemma SpendMore(p: Prekeys, q: Prekeys, ids: seq<I64>, id: I64)
    requires Spent(p, ids) && Distinct(ids) && InPool(p, id) && id < p.next <= q.next && !InPool(q, id)
    requires forall i :: 0 <= i < |q.otks| ==> InPool(p, q.otks[i].id) || q.otks[i].id >= p.next
    ensures Spent(q, ids + [id]) && Distinct(ids + [id]) && Spent(q, ids)
  {
    var more := ids + [id];
    forall i | 0 <= i < |more| ensures more[i] < q.next && !InPool(q, more[i]) {
      if i < |ids| { assert more[i] == ids[i] && ids[i] < p.next && !InPool(p, ids[i]); }
    }
    assert forall i :: 0 <= i < |ids| ==> more[i] == ids[i];
  }

  lemma UseSpends(env: Env, st: State, c: Call, ids: seq<I64>)
    requires PoolOk(st.prekeys) && Room(st, 1) && Spent(st.prekeys, ids) && Distinct(ids)
    ensures var more := ids + UsedId(env, st, c); Distinct(more) && Spent(Apply(env, st, c).0.prekeys, more)
  {
    hide Apply, Spent, Distinct, PoolOk, Position;
    PoolOf(env, st, c);
    Nil(ids);
    var p := st.prekeys;
    if Enters(env, st, c) && Took(p, c.init) {
      AcceptTakes(p, c.init, c.supply);
      IssuedIsSupplied(p, c.init, c.supply);
      AcceptSpends(p, c.init, c.supply);
      UsedIs(env, st, c);
      hide Accept, UsedId, Enters, Took;
      SpendMore(p, Accept(p, c.init, c.supply).1, ids, c.init.oneTime.value);
    } else {
      hide Refill;
    }
  }

  lemma UsedIs(env: Env, st: State, c: Call)
    ensures UsedId(env, st, c) != [] ==> c.TakeInit? && c.init.oneTime.Some? && UsedId(env, st, c) == [c.init.oneTime.value]
  {
    hide Accept;
  }

  lemma UseIsOk(env: Env, t: Trace<I64>, l: Life)
    requires InnerOk(env, t.inner, 1) && TraceOk(SPENT, t)
    ensures CallOk(env, UsedIds(env), SPENT, t, l)
  {
    hide Apply, UsedId, Spent, Distinct, VaultOk, Coherent, PoolOk;
    if l.Live? && l.ev.Mutate? && Active(t.inner) { UseSpends(env, t.inner.candidate.value.state, l.ev.call, t.used + t.pending); }
  }

  lemma {:induction false} LivesKeep(env: Env, t: Trace<I64>, ls: seq<Life>)
    requires EnvLaws(env) && StatesOk(env, t, |ls|) && TraceOk(SPENT, t)
    ensures TraceOk(SPENT, LiveAll(env, UsedIds(env), t, ls))
    decreases |ls|
  {
    if ls != [] {
      assert VaultFree(SPENT);
      RoomLess(env, t, |ls|);
      hide EnvLaws, StatesOk, TraceOk, VaultFree, CallOk, LiveOn;
      UseIsOk(env, t, ls[0]);
      LifeTraces(env, UsedIds(env), SPENT, t, ls[0]);
      LifeStates(env, UsedIds(env), t, ls[0], |ls| - 1);
      LivesKeep(env, LiveOn(env, UsedIds(env), t, ls[0]), ls[1..]);
    }
  }

  lemma RoomLess(env: Env, t: Trace<I64>, room: nat)
    requires StatesOk(env, t, room) && room > 0
    ensures InnerOk(env, t.inner, 1)
  {
    hide StateOk;
  }

  /** Along every history, through any number of crashes, closings and reopenings, no prekey id serves two committed inits,
      nor one committed and one pending; a used id is in no later pool, in memory or on disk. */
  lemma NoPrekeyTwice(env: Env, start: State, ls: seq<Life>)
    requires EnvLaws(env) && StateOk(env, start) && Room(start, |ls|)
    ensures var t := LiveAll(env, UsedIds(env), Newborn(start), ls);
            && Distinct(t.used + t.pending)
            && (t.inner.committed.Some? ==> forall i :: 0 <= i < |t.used| ==> !InPool(t.inner.committed.value.prekeys, t.used[i]))
            && (t.disk.Some? ==> forall i :: 0 <= i < |t.used| ==> !InPool(t.disk.value.prekeys, t.used[i]))
  {
    var t: Trace<I64> := Newborn(start);
    assert StatesOk(env, t, |ls|) && TraceOk(SPENT, t);
    LivesKeep(env, t, ls);
    hide LiveAll, StateOk;
  }
}
