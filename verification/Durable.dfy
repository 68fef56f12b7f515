/** The native client's discipline around one contact: the advanced ratchet is on disk before a letter leaves, and a read
    letter is on disk before the relay may drop its copy. */
module Durable {
  import opened Prelude

  /** A letter; `aside` when it is on a session of theirs that lost to ours. `answers` is the sending chain of ours that the
      writer had seen, if any: a ratchet that has not got that far cannot open it. */
  datatype Letter = Letter(id: nat, aside: bool, answers: Option<nat>)

  const INBOX_TTL_MS := 7 * 24 * 3600 * 1000

  /** `chain` names the current sending chain (a new random key each time it turns, numbered as they are made), `next` the next
      index on it, `spent` the letters whose keys have been used up. */
  datatype Ratchet = Ratchet(chain: nat, next: nat, spent: set<Letter>)

  /** A task in `ensure_session_for`: it found nothing cached, and then holds the copy it read from the disk. */
  datatype Loading = Missed | Copied(ratchet: Ratchet)

  /** An envelope handed to `deliver`, by the key that sealed it. */
  datatype Sealed = Sealed(chain: nat, n: nat)

  /** `mem` is the `sessions` cache and `disk` the sessions table; `saves` are the tables a power loss may leave, oldest first:
      the last one synced, and those saved since. `lost` are the letters read on the session set aside, which is in memory
      only; `loads` are the tasks that are loading. `wire` records the envelopes sent. */
  datatype Keyring = Keyring(
    mem: Option<Ratchet>, disk: Option<Ratchet>, saves: seq<Option<Ratchet>>, lost: Option<set<Letter>>,
    loads: map<nat, Loading>, chains: nat, wire: seq<Sealed>)

  datatype Row = Row(letter: Letter, at: int)

  /** Where the relay handler of a letter stands: stored and being processed, or processed. */
  datatype Stage = Storing(row: nat) | Processed

  /** `relay` are the copies the relay still holds. The last four record letters arrived, settled, expired or given up. */
  datatype Post = Post(
    inbox: map<nat, Row>, rows: nat, clock: int, relay: set<Letter>, handling: map<Letter, Stage>,
    arrived: set<Letter>, settled: set<Letter>, expired: set<Letter>, refused: set<Letter>)

  datatype Store = Store(keys: Keyring, post: Post)

  // ----- errors

  datatype Error = Net | Relay | Io | Db(transient: bool) | Codec | Crypto | StaleOpk | SealedDrop | State

  /** `is_transient`. */
  predicate IsTransient(e: Error) { e.Net? || e.Relay? || e.Io? || (e.Db? && e.transient) }

  /** Whether `handle_relay_frame` acknowledges a letter whose handling failed with `e`; `grace` is the fresh-session
      allowance. */
  predicate AckedOn(e: Error, grace: bool) {
    match e
    case Codec => false
    case StaleOpk => true
    case SealedDrop => true
    case Crypto => grace
    case _ => !IsTransient(e)
  }

  // ----- what the errors mean to a letter, one by one

  /** The network, the relay or the file system failed, or the database was busy. */
  predicate Passing(e: Error) { e == Net || e == Relay || e == Io || e == Db(true) }

  /** The failures after which the relay is told to drop its copy; a letter that cannot be read is among them only while a
      session is fresh. */
  predicate Final(e: Error, grace: bool) { e == StaleOpk || e == SealedDrop || e == State || e == Db(false) || (e == Crypto && grace) }

  /** A storage write: done, failed, or done although it reported failure. */
  datatype Write = Written | Failed(error: Error) | WrittenYetFailed(error: Error)

  function Failure(w: Write): Option<Error> { if w.Written? then None else Some(w.error) }

  /** What else can go wrong with a read: a contact or session could not be looked up, which ends it, or the ratchet that would
      open the letter was skipped or could not decrypt, for a failed lookup on the way or for want of protected memory. */
  datatype Hitch = Smooth | Lookup(error: Error) | Unopened

  // ----- ratchets

  function Advanced(r: Ratchet): Ratchet { r.(next := r.next + 1) }

  /** The session in memory, or else the one on disk. */
  function Current(k: Keyring): Option<Ratchet> { if k.mem.Some? then k.mem else k.disk }

  /** A session's first ratchet: our own init has used index 0 already. */
  function Begun(k: Keyring, first: nat): Ratchet { Ratchet(k.chains, first, {}) }

  /** `put_session`: in the table, but a power loss may still undo it. */
  function Saved(k: Keyring, r: Ratchet): Keyring { k.(disk := Some(r), saves := k.saves + [Some(r)]) }

  /** `commit_received` is synced, and everything before it with it. */
  function Synced(k: Keyring, disk: Option<Ratchet>): Keyring { k.(disk := disk, saves := [disk]) }

  /** The end of `ensure_session_for` when nothing was stored: save the new session, whatever is there by now, then send its
      init. */
  function Started(k: Keyring, w: Write): Keyring {
    var r, t := Begun(k, 1), k.(chains := k.chains + 1, lost := None);
    match w
    case Written => Saved(t, r).(mem := Some(r), wire := k.wire + [Sealed(r.chain, 0)])
    case Failed(_) => t
    case WrittenYetFailed(_) => Saved(t, r)
  }

  /** `send_payload_via_relay`: encrypt on the cached ratchet, save it, and only then hand the envelope on. */
  function SentOn(k: Keyring, w: Write): Keyring
    requires k.mem.Some?
  {
    var r := k.mem.value;
    var t := k.(mem := Some(Advanced(r)));
    match w
    case Written => Saved(t, Advanced(r)).(wire := k.wire + [Sealed(r.chain, r.next)])
    case Failed(_) => t
    case WrittenYetFailed(_) => Saved(t, Advanced(r))
  }

  /** An init from the other side replaces the session, in memory and on disk together. */
  function Replaced(k: Keyring, w: Write): Keyring {
    var r, t := Begun(k, 0), k.(chains := k.chains + 1, lost := None);
    match w
    case Written => Synced(t, Some(r)).(mem := Some(r))
    case Failed(_) => t
    case WrittenYetFailed(_) => Synced(t, Some(r))
  }

  predicate Opens(r: Option<Ratchet>, l: Letter) {
    r.Some? && !l.aside && l !in r.value.spent && (l.answers.Some? ==> l.answers.value <= r.value.chain)
  }

  predicate OpensAside(lost: Option<set<Letter>>, l: Letter) { lost.Some? && l.aside && l !in lost.value }

  predicate OpensAnywhere(k: Keyring, l: Letter) { Opens(Current(k), l) || OpensAside(k.lost, l) }

  /** The ratchet after reading `l`; a letter on a new chain of theirs turns ours too. */
  function AfterReading(r: Ratchet, l: Letter, turn: bool, chains: nat): Ratchet {
    var q := r.(spent := r.spent + {l});
    if turn then q.(chain := chains, next := 0) else q
  }

  /** A letter on the current session, saved in the commit that stores its text; a failed commit forgets the cached session. */
  function OnCurrent(k: Keyring, l: Letter, turn: bool, w: Write): Keyring
    requires Opens(Current(k), l)
  {
    var r := AfterReading(Current(k).value, l, turn, k.chains);
    var t := k.(chains := k.chains + 1);
    match w
    case Written => Synced(t, Some(r)).(mem := Some(r))
    case Failed(_) => t.(mem := None)
    case WrittenYetFailed(_) => Synced(t, Some(r)).(mem := None)
  }

  /** A letter on the session set aside, whose ratchet is advanced in place before the commit. */
  function OnAside(k: Keyring, l: Letter, w: Write): Keyring
    requires OpensAside(k.lost, l)
  {
    var t := k.(lost := Some(k.lost.value + {l}));
    if w.Failed? then t else Synced(t, t.disk)
  }

  function ReadKeys(k: Keyring, l: Letter, turn: bool, w: Write, h: Hitch): Keyring {
    if !h.Smooth? then k
    else if Opens(Current(k), l) then OnCurrent(k, l, turn, w)
    else if OpensAside(k.lost, l) then OnAside(k, l, w)
    else k
  }

  // ----- steps

  datatype Event =
    | Miss(task: nat)
    | Peek(task: nat)
    | Cache(task: nat)
    | Start(write: Write)
    | Send(write: Write)
    | Replace(write: Write)
    | SetAside
    | Arrive(letter: Letter)
    | Read(letter: Letter, turn: bool, write: Write, grace: bool, sealed: bool, hitch: Hitch)
    | Process(row: nat, failure: Option<Error>, removed: bool)
    | Ack(letter: Letter)
    | Sweep
    | Tick(ms: nat)
    | Crash
    | PowerLoss(kept: nat)

  predicate Holding(k: Keyring, task: nat) { task in k.loads && k.loads[task].Copied? }

  function Forgotten(k: Keyring): Keyring { k.(mem := None, lost := None, loads := map[]) }

  /** What an event does to the ratchets; one that is not enabled does nothing. */
  function KeyStep(k: Keyring, e: Event): Keyring {
    match e
    case Miss(t) => if k.mem.None? then k.(loads := k.loads[t := Missed]) else k
    case Peek(t) => if t !in k.loads || k.disk.None? then k else k.(loads := k.loads[t := Copied(k.disk.value)])
    case Cache(t) => if Holding(k, t) then k.(mem := Some(k.loads[t].ratchet), loads := k.loads - {t}) else k
    case Start(w) => Started(k, w)
    case Send(w) => if k.mem.None? then k else SentOn(k, w)
    case Replace(w) => Replaced(k, w)
    case SetAside => k.(lost := Some({}))
    case Read(l, turn, w, _, _, h) => ReadKeys(k, l, turn, w, h)
    case Crash => Forgotten(k)
    case PowerLoss(i) => if i < |k.saves| then Synced(Forgotten(k), k.saves[i]) else k
    case _ => k
  }

  // ----- letters

  predicate Stored(p: Post, l: Letter) { exists row :: row in p.inbox && p.inbox[row].letter == l }

  /** The letter's text is safe, or was given up after a week, or was already processed. */
  predicate Held(p: Post, l: Letter) { Stored(p, l) || l in p.settled || l in p.expired }

  /** Someone can have answered this chain: an envelope of ours has left on it. */
  predicate Public(wire: seq<Sealed>, chain: nat) { exists i :: 0 <= i < |wire| && wire[i].chain == chain }

  predicate MayArrive(k: Keyring, l: Letter) { !l.aside && l.answers.Some? ==> Public(k.wire, l.answers.value) }

  function WithRow(p: Post, l: Letter): Post { p.(inbox := p.inbox[p.rows := Row(l, p.clock)], rows := p.rows + 1) }

  /** The letter's row, written in the commit that saves its session, and its handler. */
  function Filed(p: Post, l: Letter, w: Write): Post {
    match w
    case Written => WithRow(p, l).(handling := p.handling[l := Storing(p.rows)])
    case Failed(_) => p
    case WrittenYetFailed(_) => WithRow(p, l)
  }

  /** Whether a read finds a ratchet that opens the letter. */
  predicate Reads(k: Keyring, l: Letter, h: Hitch) { h.Smooth? && OpensAnywhere(k, l) }

  /** How the handling of a letter fails, if it does: in the lookup, for want of a session, or in the commit. */
  function FailureOf(k: Keyring, l: Letter, w: Write, sealed: bool, h: Hitch): Option<Error> {
    if h.Lookup? then Some(h.error)
    else if Reads(k, l, h) then Failure(w)
    else Some(if sealed then SealedDrop else Crypto)
  }

  /** `handle_incoming_envelope` for a ratchet letter, on the store. */
  function Incoming(s: Store, l: Letter, turn: bool, w: Write, sealed: bool, h: Hitch): (Store, Option<Error>) {
    (Store(ReadKeys(s.keys, l, turn, w, h), if Reads(s.keys, l, h) then Filed(s.post, l, w) else s.post),
     FailureOf(s.keys, l, w, sealed, h))
  }

  /** The relay drops its copy of `l`; a letter not held then is given up. */
  function Dropped(p: Post, l: Letter): Post {
    p.(relay := p.relay - {l}, refused := if Held(p, l) then p.refused else p.refused + {l})
  }

  /** What `handle_relay_frame` adds: acknowledged failures drop the relay's copy, for better or worse. */
  function ReadOn(s: Store, l: Letter, turn: bool, w: Write, grace: bool, sealed: bool, h: Hitch): Store {
    var (t, failure) := Incoming(s, l, turn, w, sealed, h);
    if failure.None? || !AckedOn(failure.value, grace) then t else Store(t.keys, Dropped(t.post, l))
  }

  /** `deliver_letter`: a transient failure keeps the row, anything else settles the letter. */
  function ProcessedRow(p: Post, row: nat, failure: Option<Error>, removed: bool): Post
    requires row in p.inbox
  {
    var l := p.inbox[row].letter;
    var t := if l in p.handling && p.handling[l] == Storing(row) then p.(handling := p.handling[l := Processed]) else p;
    if failure.Some? && IsTransient(failure.value) then t
    else t.(settled := p.settled + {l}, inbox := if removed then p.inbox - {row} else p.inbox)
  }

  predicate TooOld(r: Row, clock: int) { r.at < clock - INBOX_TTL_MS }

  /** `inbox_pending` drops what has waited longer than the time to live. */
  function Swept(p: Post): Post {
    p.(inbox := map row | row in p.inbox && !TooOld(p.inbox[row], p.clock) :: p.inbox[row],
       expired := p.expired + set row | row in p.inbox && TooOld(p.inbox[row], p.clock) :: p.inbox[row].letter)
  }

  /** What an event other than a read does to the letters. */
  function PostStep(s: Store, e: Event): Post {
    var p := s.post;
    match e
    case Arrive(l) => if MayArrive(s.keys, l) then p.(relay := p.relay + {l}, arrived := p.arrived + {l}) else p
    case Process(row, failure, removed) => if row !in p.inbox then p else ProcessedRow(p, row, failure, removed)
    case Ack(l) =>
      if l in p.handling && p.handling[l] == Processed then p.(relay := p.relay - {l}, handling := p.handling - {l}) else p
    case Sweep => Swept(p)
    case Tick(ms) => p.(clock := p.clock + ms)
    case Crash => p.(handling := map[])
    case PowerLoss(_) => p.(handling := map[])
    case _ => p
  }

  function Step(s: Store, e: Event): Store {
    if e.Read? then
      if e.letter in s.post.relay then ReadOn(s, e.letter, e.turn, e.write, e.grace, e.sealed, e.hitch) else s
    else Store(KeyStep(s.keys, e), PostStep(s, e))
  }

  function Run(s: Store, es: seq<Event>): Store
    decreases |es|
  {
    if es == [] then s else Run(Step(s, es[0]), es[1..])
  }

  const EMPTY := Store(Keyring(None, None, [None], None, map[], 0, []), Post(map[], 0, 0, {}, map[], {}, {}, {}, {}))

  /** The ratchets go through an event as `KeyStep` says, or, for a letter the relay does not offer, not at all. */
  lemma KeysOf(s: Store, e: Event)
    ensures Step(s, e).keys == if e.Read? && e.letter !in s.post.relay then s.keys else KeyStep(s.keys, e)
  {
    hide Held, AckedOn, ReadKeys, OpensAnywhere;
  }

  lemma RunCons(s: Store, e: Event, es: seq<Event>)
    ensures Run(s, [e] + es) == Run(Step(s, e), es)
  {
    Cons(e, es);
  }

  lemma {:induction false} RunAppend(s: Store, es: seq<Event>, more: seq<Event>)
    ensures Run(s, es + more) == Run(Run(s, es), more)
    decreases |es|
  {
    hide Step;
    if es == [] {
      Nil(more);
    } else {
      Tail(es, more);
      RunAppend(Step(s, es[0]), es[1..], more);
    }
  }

  lemma TwoSteps(s: Store, a: Event, b: Event)
    ensures Run(s, [a, b]) == Step(Step(s, a), b)
  {
    hide Step;
    RunCons(s, a, [b]);
    assert [a, b] == [a] + [b];
    assert [b][1..] == [];
  }

  lemma FourSteps(s: Store, a: Event, b: Event, c: Event, d: Event)
    ensures Run(s, [a, b, c, d]) == Step(Step(Step(Step(s, a), b), c), d)
  {
    hide Step;
    TwoSteps(s, a, b);
    TwoSteps(Step(Step(s, a), b), c, d);
    RunAppend(s, [a, b], [c, d]);
    assert [a, b] + [c, d] == [a, b, c, d];
  }

  // ----- no key is used twice

  /** Every envelope sent on the ratchet's chain is below its next index. */
  predicate NotBehind(r: Ratchet, wire: seq<Sealed>) {
    forall i :: 0 <= i < |wire| && wire[i].chain == r.chain ==> wire[i].n < r.next
  }

  predicate Past(r: Option<Ratchet>, k: Keyring) { r.Some? ==> r.value.chain < k.chains && NotBehind(r.value, k.wire) }

  predicate Unrepeated(wire: seq<Sealed>) { forall i, j :: 0 <= i < j < |wire| ==> wire[i] != wire[j] }

  predicate WireOk(k: Keyring) {
    && (forall i :: 0 <= i < |k.wire| ==> k.wire[i].chain < k.chains)
    && Unrepeated(k.wire) && Past(k.mem, k) && Past(k.disk, k)
    && (forall t :: t in k.loads && k.loads[t].Copied? ==> k.loads[t].ratchet.chain < k.chains)
    && (forall i :: 0 <= i < |k.saves| && k.saves[i].Some? ==> k.saves[i].value.chain < k.chains)
    && k.saves != [] && k.saves[|k.saves| - 1] == k.disk
  }

  /** A copy goes into the cache, and a power loss brings a table back, only while no envelope has left on its chain at its
      index or above. */
  predicate Timely(k: Keyring, e: Event) {
    && (e.Cache? && Holding(k, e.task) ==> NotBehind(k.loads[e.task].ratchet, k.wire))
    && (e.PowerLoss? && e.kept < |k.saves| && k.saves[e.kept].Some? ==> NotBehind(k.saves[e.kept].value, k.wire))
  }

  predicate AllTimely(s: Store, es: seq<Event>)
    decreases |es|
  {
    es != [] ==> Timely(s.keys, es[0]) && AllTimely(Step(s, es[0]), es[1..])
  }

  lemma WireKeptBySend(k: Keyring, w: Write)
    requires WireOk(k) && k.mem.Some?
    ensures WireOk(SentOn(k, w))
  {
  }

  lemma WireKeptByStart(k: Keyring, w: Write)
    requires WireOk(k)
    ensures WireOk(Started(k, w))
  {
  }

  lemma WireKeptByRead(k: Keyring, l: Letter, turn: bool, w: Write, h: Hitch)
    requires WireOk(k)
    ensures WireOk(ReadKeys(k, l, turn, w, h))
  {
    hide Unrepeated;
  }

  lemma WireKeptByReplace(k: Keyring, w: Write)
    requires WireOk(k)
    ensures WireOk(Replaced(k, w))
  {
    hide Unrepeated;
  }

  lemma WireKept(k: Keyring, e: Event)
    requires WireOk(k) && Timely(k, e)
    ensures WireOk(KeyStep(k, e))
  {
    match e {
      case Start(w) => WireKeptByStart(k, w);
      case Send(w) => if k.mem.Some? { WireKeptBySend(k, w); }
      case Replace(w) => WireKeptByReplace(k, w);
      case Read(l, turn, w, _, _, h) => WireKeptByRead(k, l, turn, w, h);
      case _ => hide Unrepeated, NotBehind;
    }
    hide Started, SentOn, ReadKeys, Replaced;
  }

  lemma {:induction false} WireKeptAlong(s: Store, es: seq<Event>)
    requires WireOk(s.keys) && AllTimely(s, es)
    ensures WireOk(Run(s, es).keys)
    decreases |es|
  {
    if es != [] {
      hide Step, WireOk, KeyStep;
      WireKept(s.keys, es[0]);
      KeysOf(s, es[0]);
      WireKeptAlong(Step(s, es[0]), es[1..]);
    }
  }

  /** Over every run of sends, receives, loads, failed writes, crashes and power losses in which copies are cached and tables
      come back in time, no two envelopes handed on used the same key. */
  lemma NoKeyTwice(es: seq<Event>, i: nat, j: nat)
    requires AllTimely(EMPTY, es) && i < j < |Run(EMPTY, es).keys.wire|
    ensures Run(EMPTY, es).keys.wire[i] != Run(EMPTY, es).keys.wire[j]
  {
    WireKeptAlong(EMPTY, es);
  }

  // ----- a ratchet that is behind repeats a key

  /** Two tasks load the stored session; the second caches its copy after the first has sent: index 1 leaves twice. */
  lemma StaleCopyRepeats()
    ensures var s := Run(EMPTY, [Start(Written), Crash, Miss(1), Miss(2)]);
            var t := Run(s, [Peek(1), Peek(2), Cache(1), Send(Written)]);
            Run(t, [Cache(2), Send(Written)]).keys.wire == [Sealed(0, 0), Sealed(0, 1), Sealed(0, 1)]
  {
    hide Run;
    var s1 := Step(EMPTY, Start(Written));
    assert s1.keys.wire == [Sealed(0, 0)];
    var s := Step(Step(Step(s1, Crash), Miss(1)), Miss(2));
    var r := Ratchet(0, 1, {});
    FourSteps(EMPTY, Start(Written), Crash, Miss(1), Miss(2));
    var t2 := Step(Step(s, Peek(1)), Peek(2));
    assert t2.keys.loads[1] == Copied(r) && t2.keys.loads[2] == Copied(r);
    var t4 := Step(Step(t2, Cache(1)), Send(Written));
    assert t4.keys.wire == [Sealed(0, 0), Sealed(0, 1)] && t4.keys.loads[2] == Copied(r);
    FourSteps(s, Peek(1), Peek(2), Cache(1), Send(Written));
    TwoSteps(t4, Cache(2), Send(Written));
    assert Step(Step(t4, Cache(2)), Send(Written)).keys.wire == [Sealed(0, 0), Sealed(0, 1), Sealed(0, 1)];
  }

  /** A saved send is undone by a power loss after its envelope left; the reopened client sends index 1 again. */
  lemma PowerLossRepeats()
    ensures var s := Run(EMPTY, [Start(Written), Send(Written), PowerLoss(1), Miss(0)]);
            Step(Run(s, [Peek(0), Cache(0)]), Send(Written)).keys.wire == [Sealed(0, 0), Sealed(0, 1), Sealed(0, 1)]
  {
    hide Run;
    var r := Ratchet(0, 1, {});
    var s1 := Step(EMPTY, Start(Written));
    assert s1.keys.wire == [Sealed(0, 0)] && s1.keys.saves == [None, Some(r)];
    var s2 := Step(s1, Send(Written));
    assert s2.keys.wire == [Sealed(0, 0), Sealed(0, 1)] && s2.keys.saves[1] == Some(r);
    var s := Step(Step(s2, PowerLoss(1)), Miss(0));
    assert s.keys.disk == Some(r) && s.keys.loads == map[0 := Missed];
    FourSteps(EMPTY, Start(Written), Send(Written), PowerLoss(1), Miss(0));
    var t := Step(Step(s, Peek(0)), Cache(0));
    assert t.keys.mem == Some(r) && t.keys.wire == s2.keys.wire;
    TwoSteps(s, Peek(0), Cache(0));
    assert Step(t, Send(Written)).keys.wire == [Sealed(0, 0), Sealed(0, 1), Sealed(0, 1)];
  }

  function Sends(n: nat): seq<Event> { if n == 0 then [] else [Send(Written)] + Sends(n - 1) }

  /** The client dies and starts again from the disk. */
  function Restarted(s: Store): Store { Step(Step(Step(Step(s, Crash), Miss(0)), Peek(0)), Cache(0)) }

  /** However often the client sends from here, at once or after a restart, no key is repeated. */
  ghost predicate KeysSafe(s: Store) {
    && (forall n: nat :: Unrepeated(Run(s, Sends(n)).keys.wire))
    && (forall n: nat :: Unrepeated(Run(Restarted(s), Sends(n)).keys.wire))
  }

  lemma {:induction false} SendsTimely(s: Store, n: nat)
    ensures AllTimely(s, Sends(n))
    decreases n
  {
    if n > 0 {
      Cons(Send(Written), Sends(n - 1));
      SendsTimely(Step(s, Send(Written)), n - 1);
    }
  }

  lemma RestartKeys(s: Store)
    ensures var k := Restarted(s).keys;
            k.mem == s.keys.disk && k.disk == s.keys.disk && k.wire == s.keys.wire && k.chains == s.keys.chains && k.saves == s.keys.saves
    ensures var k := Restarted(s).keys; forall t :: t in k.loads ==> k.loads[t].Missed?
  {
  }

  lemma WireIsSafe(s: Store)
    requires WireOk(s.keys)
    ensures KeysSafe(s)
  {
    RestartKeys(s);
    var again := Restarted(s);
    assert WireOk(again.keys);
    hide Restarted, WireOk, Run, Step;
    forall n: nat ensures Unrepeated(Run(s, Sends(n)).keys.wire) && Unrepeated(Run(again, Sends(n)).keys.wire) {
      SendsTimely(s, n);
      SendsTimely(again, n);
      WireKeptAlong(s, Sends(n));
      WireKeptAlong(again, Sends(n));
      WireSays(Run(s, Sends(n)).keys);
      WireSays(Run(again, Sends(n)).keys);
    }
  }

  lemma WireSays(k: Keyring)
    requires WireOk(k)
    ensures Unrepeated(k.wire)
  {
  }

  /** A cached ratchet that is behind what was sent on its chain gets there again. */
  lemma {:induction false} BehindRepeats(s: Store, i: nat) returns (n: nat)
    requires s.keys.mem.Some? && i < |s.keys.wire| && s.keys.wire[i].chain == s.keys.mem.value.chain
    requires s.keys.wire[i].n >= s.keys.mem.value.next
    ensures !Unrepeated(Run(s, Sends(n)).keys.wire)
    decreases s.keys.wire[i].n - s.keys.mem.value.next
  {
    var t := Step(s, Send(Written));
    if s.keys.wire[i].n == s.keys.mem.value.next {
      assert t.keys.wire[i] == t.keys.wire[|s.keys.wire|];
      n := 1;
      RunCons(s, Send(Written), Sends(0));
      assert Run(t, []) == t;
    } else {
      assert t.keys.wire[i] == s.keys.wire[i];
      n := BehindRepeats(t, i);
      RunCons(s, Send(Written), Sends(n));
      n := n + 1;
    }
  }

  /** An event is safe exactly when it is timely: nothing has left, at its index or above, on the chain of a copy it caches or
      of a table it brings back. */
  lemma KeysSafeExactlyAt(s: Store, e: Event)
    requires WireOk(s.keys)
    ensures KeysSafe(Step(s, e)) <==> Timely(s.keys, e)
  {
    var t := Step(s, e);
    KeysOf(s, e);
    if Timely(s.keys, e) {
      WireKept(s.keys, e);
      hide Step;
      WireIsSafe(t);
    } else if e.Cache? {
      var r := s.keys.loads[e.task].ratchet;
      var i :| 0 <= i < |s.keys.wire| && s.keys.wire[i].chain == r.chain && s.keys.wire[i].n >= r.next;
      assert t.keys.mem == Some(r) && t.keys.wire == s.keys.wire;
      hide Step;
      var n := BehindRepeats(t, i);
    } else {
      var r := s.keys.saves[e.kept].value;
      var i :| 0 <= i < |s.keys.wire| && s.keys.wire[i].chain == r.chain && s.keys.wire[i].n >= r.next;
      assert t.keys.disk == Some(r) && t.keys.wire == s.keys.wire;
      RestartKeys(t);
      hide Step, Restarted;
      var n := BehindRepeats(Restarted(t), i);
    }
  }

  ghost predicate AlwaysSafe(s: Store, es: seq<Event>)
    decreases |es|
  {
    KeysSafe(s) && (es != [] ==> AlwaysSafe(Step(s, es[0]), es[1..]))
  }

  /** Over every run: at no moment of it can sending repeat a key, at once or after a restart, if and only if every copy was
      cached, and every table came back, in time. */
  lemma {:induction false} KeysSafeExactly(s: Store, es: seq<Event>)
    requires WireOk(s.keys)
    ensures AlwaysSafe(s, es) <==> AllTimely(s, es)
    decreases |es|
  {
    WireIsSafe(s);
    if es != [] {
      hide WireOk, Step, KeysSafe, Timely, KeyStep;
      KeysSafeExactlyAt(s, es[0]);
      if Timely(s.keys, es[0]) {
        WireKept(s.keys, es[0]);
        KeysOf(s, es[0]);
        KeysSafeExactly(Step(s, es[0]), es[1..]);
      }
    }
  }

  // ----- no letter that opens is lost

  predicate SpentHeld(p: Post, r: Ratchet) { forall l :: l in r.spent ==> Held(p, l) }

  /** The ratchet has got as far as anything sent, so whoever answers can be read. */
  predicate Ahead(r: Ratchet, wire: seq<Sealed>) { forall i :: 0 <= i < |wire| ==> wire[i].chain <= r.chain }

  /** The ratchets in use are ahead, and no ratchet that is or may come into use has spent a letter that is not held. */
  ghost predicate RingOk(s: Store) {
    var k := s.keys;
    && k.disk.Some? && Ahead(k.disk.value, k.wire) && (k.mem.Some? ==> Ahead(k.mem.value, k.wire))
    && SpentHeld(s.post, k.disk.value) && (k.mem.Some? ==> SpentHeld(s.post, k.mem.value))
    && (forall t :: t in k.loads && k.loads[t].Copied? ==> SpentHeld(s.post, k.loads[t].ratchet))
    && (forall i :: 0 <= i < |k.saves| && k.saves[i].Some? ==> SpentHeld(s.post, k.saves[i].value))
    && Numbered(k)
  }

  /** Every chain there is has been numbered. */
  predicate Numbered(k: Keyring) {
    && (k.disk.Some? ==> k.disk.value.chain < k.chains) && (k.mem.Some? ==> k.mem.value.chain < k.chains)
    && (forall t :: t in k.loads && k.loads[t].Copied? ==> k.loads[t].ratchet.chain < k.chains)
    && (forall i :: 0 <= i < |k.saves| && k.saves[i].Some? ==> k.saves[i].value.chain < k.chains)
    && (forall i :: 0 <= i < |k.wire| ==> k.wire[i].chain < k.chains)
  }

  ghost predicate PostOk(s: Store) {
    var p := s.post;
    && (forall l :: l in p.handling ==> Held(p, l))
    && (forall l :: l in p.arrived ==> l in p.relay || Held(p, l) || l in p.refused)
    && (forall row :: row in p.inbox ==> row < p.rows)
    && (forall l :: l in p.relay ==> MayArrive(s.keys, l))
  }

  ghost predicate LettersOk(s: Store) { RingOk(s) && PostOk(s) }

  /** An event of an established contact: nothing opens or replaces the session, and a ratchet that comes into use again, from a
      copy or after a power loss, is ahead. */
  predicate Established(k: Keyring, e: Event) {
    && !e.Start? && !e.Replace?
    && (e.Cache? && Holding(k, e.task) ==> Ahead(k.loads[e.task].ratchet, k.wire))
    && (e.PowerLoss? && e.kept < |k.saves| ==> k.saves[e.kept].Some? && Ahead(k.saves[e.kept].value, k.wire))
  }

  predicate AllEstablished(s: Store, es: seq<Event>)
    decreases |es|
  {
    es != [] ==> Established(s.keys, es[0]) && AllEstablished(Step(s, es[0]), es[1..])
  }

  /** Whether this read puts its letter into the inbox. */
  predicate Stores(s: Store, e: Event) { e.Read? && Reads(s.keys, e.letter, e.hitch) && !e.write.Failed? }

  /** Whether the relay is told to drop its copy because the read failed. */
  predicate Drops(s: Store, e: Event) {
    e.Read? && var failure := FailureOf(s.keys, e.letter, e.write, e.sealed, e.hitch); failure.Some? && AckedOn(failure.value, e.grace)
  }

  /** What a read does to the letters. */
  lemma ReadShape(s: Store, e: Event)
    requires e.Read? && e.letter in s.post.relay
    ensures var p, t, l := s.post, Step(s, e).post, e.letter;
            && t.inbox == (if Stores(s, e) then p.inbox[p.rows := Row(l, p.clock)] else p.inbox)
            && t.rows == (if Stores(s, e) then p.rows + 1 else p.rows)
            && t.relay == (if Drops(s, e) then p.relay - {l} else p.relay)
            && t.refused == (if Drops(s, e) && !Held(t, l) then p.refused + {l} else p.refused)
            && t.arrived == p.arrived && t.settled == p.settled && t.expired == p.expired
            && t.handling.Keys <= p.handling.Keys + (if Stores(s, e) then {l} else {})
  {
    hide Held, AckedOn, ReadKeys, Reads, FailureOf;
    var filed := if Reads(s.keys, e.letter, e.hitch) then Filed(s.post, e.letter, e.write) else s.post;
    assert Step(s, e).post == if Drops(s, e) then Dropped(filed, e.letter) else filed;
    FiledShape(s.post, e.letter, e.write);
    hide Filed, Step, Drops;
    HeldSame(filed, Step(s, e).post, e.letter);
  }

  lemma FiledShape(p: Post, l: Letter, w: Write)
    ensures var t := Filed(p, l, w);
            && t.inbox == (if w.Failed? then p.inbox else p.inbox[p.rows := Row(l, p.clock)])
            && t.rows == (if w.Failed? then p.rows else p.rows + 1) && t.relay == p.relay && t.refused == p.refused
            && t.arrived == p.arrived && t.settled == p.settled && t.expired == p.expired
            && t.handling.Keys <= p.handling.Keys + (if w.Failed? then {} else {l})
  {
  }

  lemma HeldSame(p: Post, t: Post, l: Letter)
    requires t.inbox == p.inbox && t.settled == p.settled && t.expired == p.expired
    ensures Held(t, l) == Held(p, l)
  {
  }

  /** Each step keeps a row, or settles or expires its letter. */
  lemma RowKept(s: Store, e: Event, row: nat)
    requires row in s.post.inbox && (forall k :: k in s.post.inbox ==> k < s.post.rows)
    ensures var p, t := s.post, Step(s, e).post;
            var l := p.inbox[row].letter;
            (row in t.inbox && t.inbox[row] == p.inbox[row]) || l in t.settled || l in t.expired
  {
    hide IsTransient, Held, ReadOn, KeyStep;
    if e.Read? && e.letter in s.post.relay { ReadShape(s, e); }
  }

  lemma HistoryGrows(s: Store, e: Event)
    ensures s.post.settled <= Step(s, e).post.settled && s.post.expired <= Step(s, e).post.expired
  {
    hide IsTransient, Held, ReadOn, KeyStep;
    if e.Read? && e.letter in s.post.relay { ReadShape(s, e); }
  }

  lemma HeldKept(s: Store, e: Event, l: Letter)
    requires Held(s.post, l) && (forall row :: row in s.post.inbox ==> row < s.post.rows)
    ensures Held(Step(s, e).post, l)
  {
    hide Step;
    HistoryGrows(s, e);
    if Stored(s.post, l) {
      var row :| row in s.post.inbox && s.post.inbox[row].letter == l;
      RowKept(s, e, row);
    }
  }

  lemma StoredIsHeld(s: Store, e: Event)
    requires e.Read? && e.letter in s.post.relay && Stores(s, e)
    ensures Held(Step(s, e).post, e.letter)
  {
    ReadShape(s, e);
    hide Step;
    assert Step(s, e).post.inbox[s.post.rows].letter == e.letter;
  }

  /** A letter that arrived opens on every ratchet in use, unless it is spent there, or set aside. */
  lemma ArrivedOpens(s: Store, l: Letter)
    requires RingOk(s) && MayArrive(s.keys, l) && !l.aside
    ensures Current(s.keys).Some? && (Opens(Current(s.keys), l) <==> l !in Current(s.keys).value.spent)
  {
    hide SpentHeld;
  }

  // ----- the ratchets

  /** What an event of an established contact makes of the ratchets in use and in store: only reading spends a letter. */
  lemma SpentBy(k: Keyring, e: Event, held: set<Letter>)
    requires !e.Start? && !e.Replace?
    requires k.disk.Some? && k.disk.value.spent <= held && (k.mem.Some? ==> k.mem.value.spent <= held)
    requires forall t :: t in k.loads && k.loads[t].Copied? ==> k.loads[t].ratchet.spent <= held
    requires forall i :: 0 <= i < |k.saves| && k.saves[i].Some? ==> k.saves[i].value.spent <= held
    ensures var n := KeyStep(k, e);
            var more := if e.Read? && Reads(k, e.letter, e.hitch) && !e.write.Failed? then held + {e.letter} else held;
            && (n.disk.Some? ==> n.disk.value.spent <= more) && (n.mem.Some? ==> n.mem.value.spent <= more)
            && (forall t :: t in n.loads && n.loads[t].Copied? ==> n.loads[t].ratchet.spent <= more)
            && (forall i :: 0 <= i < |n.saves| && n.saves[i].Some? ==> n.saves[i].value.spent <= more)
  {
  }

  lemma NumberedStart(k: Keyring, w: Write)
    requires Numbered(k)
    ensures Numbered(Started(k, w)) && Numbered(Replaced(k, w))
  {
  }

  lemma NumberedSend(k: Keyring, w: Write)
    requires Numbered(k) && k.mem.Some?
    ensures Numbered(SentOn(k, w))
  {
  }

  lemma NumberedRead(k: Keyring, l: Letter, turn: bool, w: Write, h: Hitch)
    requires Numbered(k)
    ensures Numbered(ReadKeys(k, l, turn, w, h))
  {
  }

  lemma NumberedKept(k: Keyring, e: Event)
    requires Numbered(k)
    ensures Numbered(KeyStep(k, e))
  {
    hide Started, Replaced, SentOn, ReadKeys;
    match e {
      case Start(w) => NumberedStart(k, w);
      case Replace(w) => NumberedStart(k, w);
      case Send(w) => if k.mem.Some? { NumberedSend(k, w); }
      case Read(l, turn, w, _, _, h) => NumberedRead(k, l, turn, w, h);
      case _ =>
    }
  }

  /** A read leaves the ratchets in use ahead. */
  lemma AheadRead(k: Keyring, l: Letter, turn: bool, w: Write, h: Hitch)
    requires Numbered(k) && k.disk.Some? && Ahead(k.disk.value, k.wire) && (k.mem.Some? ==> Ahead(k.mem.value, k.wire))
    ensures var n := ReadKeys(k, l, turn, w, h);
            n.disk.Some? && Ahead(n.disk.value, n.wire) && (n.mem.Some? ==> Ahead(n.mem.value, n.wire)) && n.wire == k.wire
  {
  }

  lemma AheadSend(k: Keyring, w: Write)
    requires k.mem.Some? && k.disk.Some? && Ahead(k.disk.value, k.wire) && Ahead(k.mem.value, k.wire)
    ensures var n := SentOn(k, w);
            n.disk.Some? && Ahead(n.disk.value, n.wire) && n.mem.Some? && Ahead(n.mem.value, n.wire) && k.wire <= n.wire
  {
  }

  /** And they stay ahead. */
  lemma AheadKept(k: Keyring, e: Event)
    requires Established(k, e) && Numbered(k) && k.disk.Some? && Ahead(k.disk.value, k.wire) && (k.mem.Some? ==> Ahead(k.mem.value, k.wire))
    ensures var n := KeyStep(k, e);
            && n.disk.Some? && Ahead(n.disk.value, n.wire) && (n.mem.Some? ==> Ahead(n.mem.value, n.wire)) && k.wire <= n.wire
  {
    hide Started, Replaced, SentOn, ReadKeys;
    match e {
      case Read(l, turn, w, _, _, h) => AheadRead(k, l, turn, w, h);
      case Send(w) => if k.mem.Some? { AheadSend(k, w); }
      case _ => hide Ahead, Numbered;
    }
  }

  /** All letters of a ring that are spent somewhere. */
  ghost function SpentIn(k: Keyring): set<Letter> {
    (if k.disk.Some? then k.disk.value.spent else {}) + (if k.mem.Some? then k.mem.value.spent else {})
    + (set t, l | t in k.loads && k.loads[t].Copied? && l in k.loads[t].ratchet.spent :: l)
    + (set i, l | 0 <= i < |k.saves| && k.saves[i].Some? && l in k.saves[i].value.spent :: l)
  }

  lemma SpentInHeld(s: Store)
    requires RingOk(s)
    ensures var k, held := s.keys, SpentIn(s.keys);
            && (forall l :: l in held ==> Held(s.post, l))
            && k.disk.value.spent <= held && (k.mem.Some? ==> k.mem.value.spent <= held)
            && (forall t :: t in k.loads && k.loads[t].Copied? ==> k.loads[t].ratchet.spent <= held)
            && (forall i :: 0 <= i < |k.saves| && k.saves[i].Some? ==> k.saves[i].value.spent <= held)
  {
    hide Held, Ahead, Numbered;
  }

  lemma RingKept(s: Store, e: Event)
    requires RingOk(s) && Established(s.keys, e)
    requires forall l :: Held(s.post, l) ==> Held(Step(s, e).post, l)
    ensures RingOk(Step(s, e))
  {
    hide Held, Ahead, Numbered;
    var k, t := s.keys, Step(s, e);
    KeysOf(s, e);
    if e.Read? && e.letter !in s.post.relay {
      assert t == s;
    } else {
      hide Step;
      SpentInHeld(s);
      SpentBy(k, e, SpentIn(k));
      AheadKept(k, e);
      NumberedKept(k, e);
      if Stores(s, e) { StoredIsHeld(s, e); }
      hide KeyStep, Reads, Established, SpentIn;
    }
  }

  // ----- the letters

  lemma MayArriveStill(k: Keyring, n: Keyring, l: Letter)
    requires MayArrive(k, l) && k.wire <= n.wire
    ensures MayArrive(n, l)
  {
    if !l.aside && l.answers.Some? {
      var i :| 0 <= i < |k.wire| && k.wire[i].chain == l.answers.value;
      assert n.wire[i] == k.wire[i];
    }
  }

  lemma PostKeptByRead(s: Store, e: Event)
    requires LettersOk(s) && e.Read? && e.letter in s.post.relay
    requires forall l :: Held(s.post, l) ==> Held(Step(s, e).post, l)
    requires s.keys.wire <= Step(s, e).keys.wire
    ensures PostOk(Step(s, e))
  {
    ReadShape(s, e);
    if Stores(s, e) { StoredIsHeld(s, e); }
    hide Held, Step, Drops, Stores, RingOk;
    forall l | l in s.post.relay ensures MayArrive(Step(s, e).keys, l) { MayArriveStill(s.keys, Step(s, e).keys, l); }
    hide MayArrive;
  }

  /** What the other events do to the letters besides their rows. */
  lemma OtherLetters(s: Store, e: Event)
    requires PostOk(s) && !e.Read?
    ensures var p, t := s.post, Step(s, e).post;
            && t.handling.Keys <= p.handling.Keys && t.refused == p.refused && (forall row :: row in t.inbox ==> row < t.rows)
            && (forall l :: l in p.relay && l !in t.relay ==> e.Ack? && e.letter == l && l in p.handling)
            && (forall l :: l in t.arrived ==> l in p.arrived || l in t.relay)
            && (forall l :: l in t.relay ==> MayArrive(s.keys, l))
  {
    hide KeyStep, Held, IsTransient, MayArrive;
  }

  lemma PostKeptByOther(s: Store, e: Event)
    requires PostOk(s) && !e.Read?
    requires forall l :: Held(s.post, l) ==> Held(Step(s, e).post, l)
    requires s.keys.wire <= Step(s, e).keys.wire
    ensures PostOk(Step(s, e))
  {
    OtherLetters(s, e);
    hide Held, Step;
    forall l | l in Step(s, e).post.relay ensures MayArrive(Step(s, e).keys, l) { MayArriveStill(s.keys, Step(s, e).keys, l); }
    hide MayArrive;
  }

  lemma LettersKept(s: Store, e: Event)
    requires LettersOk(s) && Established(s.keys, e)
    ensures LettersOk(Step(s, e))
  {
    forall l | Held(s.post, l) ensures Held(Step(s, e).post, l) { HeldKept(s, e, l); }
    RingKept(s, e);
    KeysOf(s, e);
    AheadKept(s.keys, e);
    hide Held, RingOk, KeyStep, Established, ReadOn;
    if !e.Read? {
      hide PostOk, Step;
      PostKeptByOther(s, e);
    } else if e.letter in s.post.relay {
      hide Step;
      PostKeptByRead(s, e);
    }
  }

  lemma {:induction false} LettersKeptAlong(s: Store, es: seq<Event>)
    requires LettersOk(s) && AllEstablished(s, es)
    ensures LettersOk(Run(s, es))
    decreases |es|
  {
    if es != [] {
      hide Step, LettersOk;
      LettersKept(s, es[0]);
      LettersKeptAlong(Step(s, es[0]), es[1..]);
    }
  }

  /** A read that makes the relay drop the only copy of a letter. */
  predicate GivesUp(s: Store, e: Event) {
    e.Read? && e.letter in s.post.relay && !Held(s.post, e.letter) && Drops(s, e) && !Stores(s, e)
  }

  predicate NeverGivesUp(s: Store, es: seq<Event>)
    decreases |es|
  {
    es != [] ==> !GivesUp(s, es[0]) && NeverGivesUp(Step(s, es[0]), es[1..])
  }

  lemma RefusedOnlyByGivingUp(s: Store, e: Event)
    requires PostOk(s)
    ensures !GivesUp(s, e) ==> Step(s, e).post.refused == s.post.refused
  {
    if !e.Read? {
      OtherLetters(s, e);
    } else if e.letter in s.post.relay {
      ReadShape(s, e);
      if Held(s.post, e.letter) { HeldKept(s, e, e.letter); }
      if Stores(s, e) { StoredIsHeld(s, e); }
      hide Step, Held, Drops, Stores;
    }
  }

  lemma {:induction false} NothingRefused(s: Store, es: seq<Event>)
    requires LettersOk(s) && AllEstablished(s, es) && NeverGivesUp(s, es)
    ensures Run(s, es).post.refused == s.post.refused
    decreases |es|
  {
    if es != [] {
      RefusedOnlyByGivingUp(s, es[0]);
      hide Step, GivesUp, LettersOk, Established;
      LettersKept(s, es[0]);
      NothingRefused(Step(s, es[0]), es[1..]);
    }
  }

  /** Over every run of an established contact, with crashes, power losses, retries, failed lookups, failed decryptions and
      failed writes at any point: a letter that arrived is still at the relay, or its text is in the inbox, or it was processed,
      or it waited out the inbox's time to live, unless a read of it gave up. */
  lemma NoLetterLost(s: Store, es: seq<Event>, l: Letter)
    requires LettersOk(s) && AllEstablished(s, es)
    ensures var t := Run(s, es).post; l in t.arrived ==> l in t.relay || Held(t, l) || l in t.refused
    ensures var t := Run(s, es).post;
            s.post.refused == {} && NeverGivesUp(s, es) && l in t.arrived ==> l in t.relay || Held(t, l)
  {
    LettersKeptAlong(s, es);
    if NeverGivesUp(s, es) { NothingRefused(s, es); }
    hide Run, Held, NeverGivesUp, AllEstablished, RingOk;
  }

  /** Reading a letter that is not held yet leaves it safe exactly when the read is not one that gives up. */
  lemma ReadIsSafeExactly(s: Store, e: Event)
    requires e.Read? && e.letter in s.post.relay && !Held(s.post, e.letter)
    ensures var t := Step(s, e).post; (e.letter in t.relay || Held(t, e.letter)) <==> !GivesUp(s, e)
  {
    ReadShape(s, e);
    if Stores(s, e) { StoredIsHeld(s, e); } else { HeldSame(s.post, Step(s, e).post, e.letter); }
    hide Step, Drops, Stores, Held;
  }

  /** What makes a read of a letter that opens give up: a lookup that fails for good; a ratchet skipped or unable to decrypt,
      when the letter is sealed or the session fresh; or a commit that fails for good. */
  predicate Fatal(e: Event) {
    && e.Read?
    && match e.hitch
       case Lookup(error) => Final(error, e.grace)
       case Unopened => e.sealed || e.grace
       case Smooth => e.write.Failed? && Final(e.write.error, e.grace)
  }

  /** A letter that some ratchet opens is given up exactly on these. */
  lemma OpeningGivesUpExactly(s: Store, e: Event)
    requires e.Read? && e.letter in s.post.relay && !Held(s.post, e.letter) && OpensAnywhere(s.keys, e.letter)
    ensures GivesUp(s, e) <==> Fatal(e)
  {
    hide Held, OpensAnywhere;
  }

  /** On an established contact that is every letter of the current session that is not held. */
  lemma CurrentGivesUpExactly(s: Store, e: Event)
    requires LettersOk(s) && e.Read? && e.letter in s.post.relay && !Held(s.post, e.letter) && !e.letter.aside
    ensures GivesUp(s, e) <==> Fatal(e)
  {
    ArrivedOpens(s, e.letter);
    assert SpentHeld(s.post, Current(s.keys).value);
    assert OpensAnywhere(s.keys, e.letter);
    hide LettersOk, OpensAnywhere, Held, Fatal, GivesUp;
    OpeningGivesUpExactly(s, e);
  }

  /** A letter on the session set aside, whose text could not be stored at the first read although the error was worth
      retrying: a retry finds its key used up. It is safe after the retry exactly when the retry's own failure is not
      acknowledged: its lookup failed for a while, or the letter named its sender and the session is past its grace period. */
  lemma AsideRetryExactly(s: Store, first: Event, again: Event)
    requires first.Read? && again.Read? && again.letter == first.letter && first.letter in s.post.relay && !Held(s.post, first.letter)
    requires OpensAside(s.keys.lost, first.letter) && first.hitch.Smooth? && first.write.Failed? && Passing(first.write.error)
    ensures var l, once := first.letter, Step(s, first);
            var t := Step(once, again).post;
            && l in once.post.relay && !Held(once.post, l)
            && (l in t.relay || Held(t, l) <==>
                if again.hitch.Lookup? then !Final(again.hitch.error, again.grace) else !again.sealed && !again.grace)
  {
    var l, once := first.letter, Step(s, first);
    assert !Opens(Current(s.keys), l);
    ReadShape(s, first);
    assert !Drops(s, first) && !Stores(s, first);
    HeldSame(s.post, once.post, l);
    assert once.keys.lost == Some(s.keys.lost.value + {l}) by { KeysOf(s, first); hide Held; }
    assert !OpensAnywhere(once.keys, l);
    hide Step, Held;
    ReadIsSafeExactly(once, again);
  }

  // ----- each way to lose one

  /** A constraint violation in the commit, acknowledged with nothing stored. */
  lemma ReadCanLose()
    ensures var l := Letter(7, false, None);
            var s := Waiting(l, None);
            var t := Step(s, Read(l, false, Failed(Db(false)), false, false, Smooth));
            LettersOk(s) && l in t.post.arrived && l !in t.post.relay && !Held(t.post, l) && Opens(t.keys.disk, l)
  {
  }

  /** One letter at the relay of an established contact, perhaps with a session set aside. */
  function Waiting(l: Letter, lost: Option<set<Letter>>): Store {
    var r := Some(Ratchet(0, 0, {}));
    Store(Keyring(None, r, [r], lost, map[], 1, []), Post(map[], 0, 0, {l}, map[], {l}, {}, {}, {}))
  }

  /** A contact or session could not be looked up, for a reason that will not pass: acknowledged without any commit tried. */
  lemma LookupCanLose()
    ensures var l := Letter(7, false, None);
            var s := Waiting(l, None);
            var t := Step(s, Read(l, false, Written, false, false, Lookup(Db(false))));
            LettersOk(s) && l in t.post.arrived && l !in t.post.relay && !Held(t.post, l) && Opens(t.keys.disk, l)
  {
  }

  /** The contact of the session set aside could not be looked up, even for a moment: a sealed letter is dropped. */
  lemma SkippedCanLose()
    ensures var l := Letter(7, true, None);
            var s := Waiting(l, Some({}));
            var t := Step(s, Read(l, false, Written, false, true, Unopened));
            LettersOk(s) && l in t.post.arrived && l !in t.post.relay && !Held(t.post, l) && OpensAside(t.keys.lost, l)
  {
  }

  /** Decryption found no protected memory: a sealed letter is dropped. */
  lemma StarvedCanLose()
    ensures var l := Letter(7, false, None);
            var s := Waiting(l, None);
            var t := Step(s, Read(l, false, Written, false, true, Unopened));
            LettersOk(s) && l in t.post.arrived && l !in t.post.relay && !Held(t.post, l) && Opens(t.keys.disk, l)
  {
  }

  // ----- a ratchet that is behind loses letters

  /** A letter that arrives now and is read without a hitch is safe afterwards, even sealed. */
  predicate ReadsSafely(s: Store, l: Letter) {
    var t := Step(Step(s, Arrive(l)), Read(l, false, Written, false, true, Smooth)).post;
    l in t.relay || Held(t, l)
  }

  /** Every letter of the current session that may arrive and is not held yet would be. */
  ghost predicate ReadsAll(s: Store) {
    forall l: Letter :: !l.aside && MayArrive(s.keys, l) && !Held(s.post, l) ==> ReadsSafely(s, l)
  }

  lemma ReadsSafelyExactly(s: Store, l: Letter)
    requires !l.aside && MayArrive(s.keys, l) && !Held(s.post, l)
    ensures ReadsSafely(s, l) <==> Opens(Current(s.keys), l)
  {
    var a, e := Step(s, Arrive(l)), Read(l, false, Written, false, true, Smooth);
    assert a.keys == s.keys && l in a.post.relay;
    HeldSame(s.post, a.post, l);
    hide Step, Held;
    ReadIsSafeExactly(a, e);
    assert Drops(a, e) <==> !Opens(Current(s.keys), l);
  }

  /** An id above those of finitely many letters. */
  ghost function MaxIdOf(ls: set<Letter>): (m: nat)
    ensures forall l :: l in ls ==> l.id < m
  {
    if ls == {} then 0
    else
      var l :| l in ls;
      var m := MaxIdOf(ls - {l});
      if l.id < m then m else l.id + 1
  }

  /** There is always a letter on its way that is not held yet. */
  lemma Unheld(p: Post, answers: Option<nat>) returns (l: Letter)
    ensures !l.aside && l.answers == answers && !Held(p, l)
  {
    var known := (set row | row in p.inbox :: p.inbox[row].letter) + p.settled + p.expired;
    l := Letter(MaxIdOf(known), false, answers);
  }

  /** Over everything from an established store: all letters are read, whatever comes, exactly while the ratchet in use has got
      as far as anything sent. */
  lemma ReadsAllExactly(s: Store)
    requires Current(s.keys).Some? ==> SpentHeld(s.post, Current(s.keys).value)
    ensures ReadsAll(s) <==> Current(s.keys).Some? && Ahead(Current(s.keys).value, s.keys.wire)
  {
    var r := Current(s.keys);
    if r.None? {
      var l := Unheld(s.post, None);
      ReadsSafelyExactly(s, l);
      hide ReadsSafely, Held;
      assert !ReadsAll(s);
    } else if !Ahead(r.value, s.keys.wire) {
      var i :| 0 <= i < |s.keys.wire| && s.keys.wire[i].chain > r.value.chain;
      var l := Unheld(s.post, Some(s.keys.wire[i].chain));
      assert MayArrive(s.keys, l);
      ReadsSafelyExactly(s, l);
      hide ReadsSafely, Held;
      assert !ReadsAll(s);
    } else {
      hide ReadsSafely, Held;
      forall l: Letter | !l.aside && MayArrive(s.keys, l) && !Held(s.post, l) ensures ReadsSafely(s, l) { ReadsSafelyExactly(s, l); }
    }
  }

  ghost predicate AlwaysReads(s: Store, es: seq<Event>)
    decreases |es|
  {
    ReadsAll(s) && (es != [] ==> AlwaysReads(Step(s, es[0]), es[1..]))
  }

  predicate NoOpening(es: seq<Event>) { forall i :: 0 <= i < |es| ==> !es[i].Start? && !es[i].Replace? }

  /** After an event that brings a ratchet back which is not ahead, letters are lost. */
  lemma BehindLoses(s: Store, e: Event)
    requires LettersOk(s) && !e.Start? && !e.Replace? && !Established(s.keys, e)
    ensures !ReadsAll(Step(s, e))
  {
    var k, t := s.keys, Step(s, e);
    KeysOf(s, e);
    assert forall l :: Held(s.post, l) ==> Held(t.post, l) by {
      forall l | Held(s.post, l) ensures Held(t.post, l) { HeldKept(s, e, l); }
    }
    assert Current(t.keys) == if e.Cache? then Some(k.loads[e.task].ratchet) else k.saves[e.kept];
    assert t.keys.wire == k.wire;
    hide Held, Step, ReadsAll;
    ReadsAllExactly(t);
  }

  /** Over every run that opens no session: at every moment of it every letter is read, if and only if no ratchet came into use,
      from a copy or after a power loss, that had not got as far as what was sent. */
  lemma {:induction false} LettersReadExactly(s: Store, es: seq<Event>)
    requires LettersOk(s) && NoOpening(es)
    ensures AlwaysReads(s, es) <==> AllEstablished(s, es)
    decreases |es|
  {
    ReadsAllExactly(s);
    if es != [] {
      var e := es[0];
      assert !e.Start? && !e.Replace?;
      assert forall i :: 0 <= i < |es[1..]| ==> es[1..][i] == es[i + 1];
      hide LettersOk, Step, ReadsAll, Established;
      if Established(s.keys, e) {
        LettersKept(s, e);
        LettersReadExactly(Step(s, e), es[1..]);
      } else {
        BehindLoses(s, e);
      }
    }
  }

  // ----- what is spent, acknowledged and removed, and when

  /** After a failed read the stored session is untouched, the cached one forgotten if it had read the letter, and what is left
      still opens the letter, unless the letter is held already. */
  lemma FailedReadStillOpens(s: Store, e: Event)
    requires LettersOk(s) && e.Read? && e.letter in s.post.relay && Opens(Current(s.keys), e.letter) && !Stores(s, e)
    ensures var t := Step(s, e);
            && t.keys.disk == s.keys.disk && t.keys.mem == (if e.hitch.Smooth? then None else s.keys.mem)
            && (Opens(Current(t.keys), e.letter) || Held(s.post, e.letter))
  {
    KeysOf(s, e);
    var l := e.letter;
    assert l in s.keys.disk.value.spent ==> Held(s.post, l);
    assert Opens(s.keys.disk, l) || l in s.keys.disk.value.spent by { assert MayArrive(s.keys, l); }
    hide Held, Step, OnAside;
  }

  /** A letter becomes spent on disk only in the step that stores its text; or, when a cached ratchet is saved that read it
      before, its text is held already. */
  lemma SpentWithText(s: Store, e: Event, l: Letter)
    requires LettersOk(s) && Established(s.keys, e)
    requires Step(s, e).keys.disk.Some? && l !in s.keys.disk.value.spent && l in Step(s, e).keys.disk.value.spent
    ensures var p, t := s.post, Step(s, e).post;
            || (e.Read? && e.letter == l && p.rows !in p.inbox && p.rows in t.inbox && t.inbox[p.rows] == Row(l, p.clock))
            || Held(p, l)
  {
    hide Held, KeyStep, Ahead, Numbered, SpentIn;
    KeysOf(s, e);
    SpentInHeld(s);
    SpentBy(s.keys, e, SpentIn(s.keys));
    if e.Read? && e.letter in s.post.relay { ReadShape(s, e); }
    hide Step;
  }

  /** The relay copy goes only once the letter is held, or when the read gives up. */
  lemma AckAfterStore(s: Store, e: Event, l: Letter)
    requires LettersOk(s) && Established(s.keys, e) && l in s.post.relay && l !in Step(s, e).post.relay
    ensures Held(Step(s, e).post, l) || GivesUp(s, e)
  {
    if Held(s.post, l) {
      HeldKept(s, e, l);
    } else if !e.Read? {
      OtherLetters(s, e);
    } else if e.letter in s.post.relay {
      ReadShape(s, e);
      if e.letter == l { ReadIsSafeExactly(s, e); }
    }
    hide Held, ReadOn, GivesUp, RingOk;
  }

  /** A contact whose first session is saved meets what the theorems ask for. */
  lemma FreshContact()
    ensures LettersOk(Step(EMPTY, Start(Written))) && WireOk(EMPTY.keys)
  {
  }

  // ----- the client, in place

  predicate Busy(p: Post, row: nat) {
    row in p.inbox && p.inbox[row].letter in p.handling && p.handling[p.inbox[row].letter] == Storing(row)
  }

  /** What processing a row came to: its failure if any, and whether the row could be deleted. */
  datatype Outcome = Outcome(failure: Option<Error>, removed: bool)

  /** `drain_inbox`: the rows in turn, leaving alone those the receive path is working on. */
  function Drained(p: Post, pending: seq<nat>, outcome: nat -> Outcome): Post
    decreases |pending|
  {
    if pending == [] then p
    else
      var row := pending[0];
      var t := if row !in p.inbox || Busy(p, row) then p else ProcessedRow(p, row, outcome(row).failure, outcome(row).removed);
      Drained(t, pending[1..], outcome)
  }

  lemma {:induction false} DrainedAppend(p: Post, pending: seq<nat>, row: nat, outcome: nat -> Outcome)
    ensures Drained(p, pending + [row], outcome) == Drained(Drained(p, pending, outcome), [row], outcome)
    decreases |pending|
  {
    hide ProcessedRow, Busy;
    if pending == [] {
      Nil([row]);
    } else {
      Tail(pending, [row]);
      var first := pending[0];
      var t := if first !in p.inbox || Busy(p, first) then p
               else ProcessedRow(p, first, outcome(first).failure, outcome(first).removed);
      DrainedAppend(t, pending[1..], row, outcome);
    }
  }

  /** Draining is a run of events, so it loses nothing either. */
  lemma {:induction false} DrainedKeeps(s: Store, pending: seq<nat>, outcome: nat -> Outcome)
    requires LettersOk(s)
    ensures LettersOk(Store(s.keys, Drained(s.post, pending, outcome)))
    decreases |pending|
  {
    if pending != [] {
      var row := pending[0];
      var e := Process(row, outcome(row).failure, outcome(row).removed);
      if row in s.post.inbox && !Busy(s.post, row) {
        assert Step(s, e) == Store(s.keys, ProcessedRow(s.post, row, outcome(row).failure, outcome(row).removed));
        hide LettersOk, Step, ProcessedRow, Busy;
        LettersKept(s, e);
        DrainedKeeps(Step(s, e), pending[1..], outcome);
      } else {
        hide LettersOk;
        DrainedKeeps(s, pending[1..], outcome);
      }
    }
  }

  /** `Core` for one contact: its maps and its database, updated in place. */
  class Client {
    var keys: Keyring
    var post: Post

    function View(): Store
      reads this
    {
      Store(keys, post)
    }

    /** The first two looks of `ensure_session_for`: at the cache, and then, without the lock, at the disk. */
    method LookUp(task: nat) returns (found: bool)
      modifies this`keys
      ensures keys == if old(keys).mem.Some? then old(keys) else KeyStep(KeyStep(old(keys), Miss(task)), Peek(task))
      ensures found <==> Current(old(keys)).Some?
    {
      if keys.mem.Some? { return true; }
      keys := keys.(loads := keys.loads[task := Missed]);
      if keys.disk.None? { return false; }
      keys := keys.(loads := keys.loads[task := Copied(keys.disk.value)]);
      found := true;
    }

    /** The copy goes into the cache, whatever the cache holds by now. */
    method CacheCopy(task: nat)
      modifies this`keys
      ensures View() == Step(old(View()), Cache(task))
    {
      if task in keys.loads && keys.loads[task].Copied? {
        keys := keys.(mem := Some(keys.loads[task].ratchet));
        keys := keys.(loads := keys.loads - {task});
      }
    }

    /** `send_payload_via_relay`. */
    method SendPayload(write: Write) returns (sent: bool)
      modifies this`keys
      ensures View() == Step(old(View()), Send(write))
      ensures sent <==> old(keys).mem.Some? && write.Written?
    {
      if keys.mem.None? { return false; }
      var r := keys.mem.value;
      keys := keys.(mem := Some(Advanced(r)));
      if write.Failed? { return false; }
      keys := keys.(disk := keys.mem, saves := keys.saves + [keys.mem]);
      if write.WrittenYetFailed? { return false; }
      keys := keys.(wire := keys.wire + [Sealed(r.chain, r.next)]);
      sent := true;
    }

    /** `handle_incoming_envelope` for one ratchet letter: the lookups, the current session, then the one set aside. */
    method HandleIncoming(l: Letter, turn: bool, write: Write, sealed: bool, hitch: Hitch) returns (failure: Option<Error>)
      modifies this
      ensures (View(), failure) == Incoming(old(View()), l, turn, write, sealed, hitch)
    {
      if hitch.Lookup? { return Some(hitch.error); }
      var r := if keys.mem.Some? then keys.mem else keys.disk;
      if hitch.Smooth? && Opens(r, l) {
        keys := keys.(mem := Some(AfterReading(r.value, l, turn, keys.chains)));
        keys := keys.(chains := keys.chains + 1);
        failure := CommitReceived(l, keys.mem, write);
        if failure.Some? { keys := keys.(mem := None); }
      } else if hitch.Smooth? && OpensAside(keys.lost, l) {
        keys := keys.(lost := Some(keys.lost.value + {l}));
        failure := CommitReceived(l, keys.disk, write);
      } else {
        failure := Some(if sealed then SealedDrop else Crypto);
      }
    }

    /** `commit_received`: session and text in one synced commit, and the handler of the letter if it succeeds. */
    method CommitReceived(l: Letter, session: Option<Ratchet>, write: Write) returns (failure: Option<Error>)
      modifies this
      ensures failure == Failure(write)
      ensures keys == (if write.Failed? then old(keys) else Synced(old(keys), session)) && post == Filed(old(post), l, write)
    {
      if write.Failed? { return Some(write.error); }
      keys := keys.(disk := session, saves := [session]);
      post := post.(inbox := post.inbox[post.rows := Row(l, post.clock)], rows := post.rows + 1);
      if write.WrittenYetFailed? { return Some(write.error); }
      post := post.(handling := post.handling[l := Storing(post.rows - 1)]);
      failure := None;
    }

    /** `handle_relay_frame` for a letter the relay offers. */
    method HandleFrame(l: Letter, turn: bool, write: Write, grace: bool, sealed: bool, hitch: Hitch)
      requires l in post.relay
      modifies this
      ensures View() == Step(old(View()), Read(l, turn, write, grace, sealed, hitch))
    {
      hide Incoming, AckedOn, Held;
      var failure := HandleIncoming(l, turn, write, sealed, hitch);
      if failure.Some? && AckedOn(failure.value, grace) {
        post := Dropped(post, l);
      }
    }

    /** `deliver_letter`, with what `persist_incoming` came to. */
    method DeliverLetter(row: nat, outcome: Outcome) returns (kept: bool)
      requires row in post.inbox
      modifies this`post
      ensures post == ProcessedRow(old(post), row, outcome.failure, outcome.removed)
      ensures kept <==> outcome.failure.Some? && Passing(outcome.failure.value)
    {
      var l := post.inbox[row].letter;
      if l in post.handling && post.handling[l] == Storing(row) {
        post := post.(handling := post.handling[l := Processed]);
      }
      if outcome.failure.Some? && IsTransient(outcome.failure.value) { return true; }
      post := post.(settled := post.settled + {l});
      if outcome.removed {
        post := post.(inbox := post.inbox - {row});
      }
      kept := false;
    }

    /** `drain_inbox` over the rows `inbox_pending` returned. */
    method DrainInbox(pending: seq<nat>, outcome: nat -> Outcome)
      modifies this`post
      ensures post == Drained(old(post), pending, outcome)
    {
      hide ProcessedRow;
      ghost var start := post;
      for i := 0 to |pending|
        invariant post == Drained(start, pending[..i], outcome)
      {
        var row := pending[i];
        DrainedAppend(start, pending[..i], row, outcome);
        assert pending[..i + 1] == pending[..i] + [row];
        assert [row][1..] == [];
        if row in post.inbox && !Busy(post, row) {
          var _ := DeliverLetter(row, outcome(row));
        }
      }
      assert pending[..|pending|] == pending;
    }
  }
}
