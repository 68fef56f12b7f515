/** Crash recovery of a browser profile: a transaction is sealed, written to the slot that does not hold the last
    committed record, perhaps mirrored to the other slot, and committed; the worker may die at any step.

    `disk` is what a crash would leave on the disk. Until a write is flushed that may be the whole record, or any bytes that
    do not pass the parser: a prefix of the record, as the worker's writes leave it, or a mixture its checksum rejects. */
module Slots {
  import opened Prelude
  import opened Vault

  /** A sealed state: the vault and text it was made from, and the record that came out. */
  datatype Saved = Saved(vault: Vault, text: Bytes, nonce: Bytes, record: Bytes)

  datatype Progress = Unwritten | Writing | Flushed | Mirroring | Mirrored

  datatype Live = Live(vault: Vault, candidate: Option<Saved>, progress: Progress)

  /** `history` lists the states that were committed, or adopted when the profile was reopened, oldest first; `tried` is
      the candidate sealed most recently. */
  datatype World = World(disk: Disk, live: Option<Live>, history: seq<Saved>, tried: Option<Saved>)

  datatype Credential = Password(pass: Bytes) | Key(credential: Bytes, prf: Bytes)

  datatype Event =
    | Seal(header: Header, text: Bytes, nonce: Bytes)
    | Rollback
    | Tear(bytes: Bytes)
    | Flush
    | TearMirror(bytes: Bytes)
    | FlushMirror
    | Commit
    | Crash
    | Reopen(profile: Bytes, credential: Credential)

  /** The two files: a generation is written to the one of its parity. */
  datatype Disk = Disk(even: Bytes, odd: Bytes)

  function Get(d: Disk, generation: nat): Bytes { if generation % 2 == 0 then d.even else d.odd }

  function Put(d: Disk, generation: nat, bytes: Bytes): Disk {
    if generation % 2 == 0 then d.(even := bytes) else d.(odd := bytes)
  }

  lemma PutGet(d: Disk, n: nat, bytes: Bytes)
    ensures Get(Put(d, n, bytes), n) == bytes && Get(Put(d, n, bytes), n + 1) == Get(d, n + 1)
    ensures Get(Put(d, n + 1, bytes), n) == Get(d, n) && Get(Put(d, n + 1, bytes), n + 1) == bytes
    ensures Get(d, n + 2) == Get(d, n)
  {
  }

  function Find(c: Crypto, d: Disk): Result<Bytes, Error> { Newest(c, [Slot(d.even), Slot(d.odd)]) }

  function Open(c: Crypto, profile: Bytes, credential: Credential, bytes: Bytes): Result<(Vault, Bytes), Error> {
    match credential
    case Password(pass) => OpenPassword(c, profile, pass, bytes)
    case Key(id, prf) => OpenPasskey(c, profile, id, prf, bytes)
  }

  function Start(c: Crypto, v: Vault): World {
    World(Disk([], []), Some(Live(v, None, Unwritten)), [], None)
  }

  /** One event; an event that is not enabled changes nothing. A transaction that fails once writing has begun closes
      the engine, so that case is `Crash`. */
  function Step(c: Crypto, w: World, e: Event): World
  {
    if w.live.None? then
      if e.Reopen? then Reopened(c, w, e.profile, e.credential) else w
    else if e.Crash? then w.(live := None)
    else
      var live := w.live.value;
      if live.candidate.None? then
        if e.Seal? then Sealed(c, w, live, e.header, e.text, e.nonce) else w
      else Written(c, w, live, live.candidate.value, e)
  }

  function Sealed(c: Crypto, w: World, live: Live, header: Header, text: Bytes, nonce: Bytes): World {
    var v := live.vault.(header := header);
    var r := SealNext(c, v, text, nonce);
    if !HeaderRules(header) || |nonce| != 24 || r.Err? then w
    else
      var s := Saved(v, text, nonce, r.value.1);
      w.(live := Some(Live(live.vault, Some(s), Unwritten)), tried := Some(s))
  }

  /** What an unfinished write of `record` may leave. */
  predicate Torn(c: Crypto, record: Bytes, bytes: Bytes) { bytes == record || Parse(c, bytes).Err? }

  function Written(c: Crypto, w: World, live: Live, s: Saved, e: Event): World
  {
    var n := s.vault.generation + 1;
    var at := live.progress;
    match e
    case Rollback => if at.Unwritten? then w.(live := Some(Live(live.vault, None, Unwritten))) else w
    case Tear(bytes) =>
      if (at.Unwritten? || at.Writing?) && Torn(c, s.record, bytes)
      then w.(disk := Put(w.disk, n, bytes), live := Some(live.(progress := Writing))) else w
    case Flush =>
      if at.Writing? then w.(disk := Put(w.disk, n, s.record), live := Some(live.(progress := Flushed))) else w
    case TearMirror(bytes) =>
      if (at.Flushed? || at.Mirroring?) && Torn(c, s.record, bytes)
      then w.(disk := Put(w.disk, n - 1, bytes), live := Some(live.(progress := Mirroring))) else w
    case FlushMirror =>
      if at.Mirroring? then w.(disk := Put(w.disk, n - 1, s.record), live := Some(live.(progress := Mirrored))) else w
    case Commit =>
      if at.Flushed? || at.Mirrored? then
        var r := Committed(s.vault, n);
        if r.Err? then w.(live := Some(Live(live.vault, None, Unwritten)))
        else w.(live := Some(Live(r.value, None, Unwritten)), history := w.history + [s])
      else w
    case _ => w
  }

  /** The newest complete record is chosen before any credential is tried; the history takes in the last candidate when
      that is what the record's generation says was found. */
  function Reopened(c: Crypto, w: World, profile: Bytes, credential: Credential): World {
    var best := Find(c, w.disk);
    if best.Err? then w
    else
      var r := Open(c, profile, credential, best.value);
      if r.Err? then w
      else
        var adopt := w.tried.Some? && Generation(c, best.value) == |w.history| + 1;
        w.(live := Some(Live(r.value.0, None, Unwritten)), history := if adopt then w.history + [w.tried.value] else w.history)
  }

  function Run(c: Crypto, w: World, es: seq<Event>): World
    decreases |es|
  {
    if es == [] then w else Run(c, Step(c, w, es[0]), es[1..])
  }

  // ----- the invariant

  /** `s` is an honest sealing of the generation after `n`. */
  ghost predicate SavedAfter(c: Crypto, s: Saved, n: nat) {
    && s.vault.generation == n && HeaderRules(s.vault.header) && |s.nonce| == 24
    && SealNext(c, s.vault, s.text, s.nonce) == Ok((n + 1, s.record))
  }

  ghost predicate Chain(c: Crypto, h: seq<Saved>) { forall i :: 0 <= i < |h| ==> SavedAfter(c, h[i], i) }

  /** The slot can be chosen only if it holds `newest` itself. */
  ghost predicate Behind(c: Crypto, bytes: Bytes, n: nat, newest: Bytes) {
    Parse(c, bytes).Ok? ==> Generation(c, bytes) <= n && (Generation(c, bytes) == n ==> bytes == newest)
  }

  /** The last state of the history is in its own file. */
  ghost predicate Anchored(c: Crypto, d: Disk, h: seq<Saved>) {
    if h == [] then Parse(c, Get(d, 0)).Err? else Get(d, |h|) == h[|h| - 1].record
  }

  /** The disk shows the last state of the history. */
  ghost predicate ShowsLast(c: Crypto, d: Disk, h: seq<Saved>) {
    && Anchored(c, d, h)
    && if h == [] then Parse(c, Get(d, 1)).Err? else Behind(c, Get(d, |h| + 1), |h|, h[|h| - 1].record)
  }

  /** The disk shows the candidate sealed after generation `n`. */
  ghost predicate ShowsTried(c: Crypto, d: Disk, n: nat, tried: Option<Saved>) {
    && tried.Some? && SavedAfter(c, tried.value, n)
    && Get(d, n + 1) == tried.value.record
    && Behind(c, Get(d, n), n + 1, tried.value.record)
  }

  ghost predicate LiveOk(c: Crypto, w: World, live: Live) {
    && live.vault.generation == |w.history|
    && (live.candidate.None? ==> ShowsLast(c, w.disk, w.history))
    && (live.candidate.Some? ==>
          && w.tried == live.candidate && SavedAfter(c, live.candidate.value, |w.history|)
          && match live.progress
             case Unwritten => ShowsLast(c, w.disk, w.history)
             case Writing => Anchored(c, w.disk, w.history)
             case _ => ShowsTried(c, w.disk, |w.history|, w.tried))
  }

  ghost predicate Inv(c: Crypto, w: World) {
    && Chain(c, w.history)
    && (ShowsLast(c, w.disk, w.history) || ShowsTried(c, w.disk, |w.history|, w.tried))
    && (w.live.Some? ==> LiveOk(c, w, w.live.value))
  }

  ghost predicate Laws(c: Crypto) { CipherLaws(c) && FormatLaws(c) }

  lemma SavedParses(c: Crypto, s: Saved, n: nat)
    requires Laws(c) && SavedAfter(c, s, n)
    ensures Parse(c, s.record).Ok? && Generation(c, s.record) == n + 1
  {
    SealedParses(c, s.vault, s.text, s.nonce);
    hide Parse, SealNext;
  }

  /** A write cut short anywhere is one of them, whatever the digest does. */
  lemma PrefixIsTorn(c: Crypto, s: Saved, n: nat, k: nat)
    requires Laws(c) && SavedAfter(c, s, n) && k <= |s.record|
    ensures Torn(c, s.record, s.record[..k])
  {
    hide Parse, SealNext;
    SavedParses(c, s, n);
    if s.record[..k] != s.record { TornNeverParses(c, s.record, s.record[..k]); }
  }

  lemma FindOfTwo(c: Crypto, d: Disk)
    ensures Find(c, d) ==
              var e, o := Parse(c, d.even), Parse(c, d.odd);
              if e.Err? && o.Err? then Err(NoRecord) else if e.Err? then Ok(d.odd) else if o.Err? then Ok(d.even)
              else if Generation(c, d.even) <= Generation(c, d.odd) then Ok(d.odd) else Ok(d.even)
  {
    hide Parse;
    var one := [Slot(d.even)];
    assert [Slot(d.even), Slot(d.odd)][..1] == one && one[..0] == [];
    assert Newest(c, one) == if Parse(c, d.even).Err? then Err(NoRecord) else Ok(d.even);
  }

  lemma FindNewest(c: Crypto, d: Disk, n: nat, m: nat, newest: Bytes)
    requires Parse(c, newest).Ok? && Generation(c, newest) == m && Get(d, n) == newest && Behind(c, Get(d, n + 1), m, newest)
    ensures Find(c, d) == Ok(newest)
  {
    FindOfTwo(c, d);
    hide Parse, Find;
    PutGet(d, n, []);
  }

  /** What a reader of the two slots finds. */
  lemma Chooses(c: Crypto, w: World)
    requires Laws(c) && Chain(c, w.history)
    ensures ShowsLast(c, w.disk, w.history) ==>
              (Find(c, w.disk) == if w.history == [] then Err(NoRecord) else Ok(w.history[|w.history| - 1].record))
    ensures ShowsTried(c, w.disk, |w.history|, w.tried) ==> Find(c, w.disk) == Ok(w.tried.value.record)
  {
    hide Parse, SealNext, Find, Laws, HeaderRules;
    var n := |w.history|;
    FindOfTwo(c, w.disk);
    PutGet(w.disk, n, []);
    if ShowsLast(c, w.disk, w.history) && n > 0 {
      SavedParses(c, w.history[n - 1], n - 1);
      FindNewest(c, w.disk, n, n, w.history[n - 1].record);
    }
    if ShowsTried(c, w.disk, |w.history|, w.tried) {
      SavedParses(c, w.tried.value, n);
      FindNewest(c, w.disk, n + 1, n + 1, w.tried.value.record);
    }
  }

  // ----- every step keeps it

  lemma SealKeeps(c: Crypto, w: World, header: Header, text: Bytes, nonce: Bytes)
    requires Laws(c) && Inv(c, w) && w.live.Some? && w.live.value.candidate.None?
    ensures Inv(c, Sealed(c, w, w.live.value, header, text, nonce))
  {
    hide Parse;
    var v := w.live.value.vault.(header := header);
    var r := SealNext(c, v, text, nonce);
    if r.Ok? { assert r.value == (v.generation + 1, r.value.1); }
    hide SealNext;
  }

  /** Whatever an unfinished first copy left, the disk shows the last state or the whole candidate. */
  lemma TearDisk(c: Crypto, d: Disk, h: seq<Saved>, s: Saved, bytes: Bytes)
    requires Laws(c) && Chain(c, h) && SavedAfter(c, s, |h|) && Anchored(c, d, h) && Torn(c, s.record, bytes)
    ensures var r := Put(d, |h| + 1, bytes);
            Anchored(c, r, h) && (ShowsLast(c, r, h) || ShowsTried(c, r, |h|, Some(s)))
  {
    hide SavedAfter, Parse, Get, Put, Chain, Laws;
    FlushDisk(c, d, h, s);
    PutGet(d, |h|, bytes);
  }

  lemma FlushDisk(c: Crypto, d: Disk, h: seq<Saved>, s: Saved)
    requires Laws(c) && Chain(c, h) && SavedAfter(c, s, |h|) && Anchored(c, d, h)
    ensures ShowsTried(c, Put(d, |h| + 1, s.record), |h|, Some(s))
  {
    hide Parse, Get, Put, HeaderRules, SealNext, Laws;
    var n := |h|;
    SavedParses(c, s, n);
    if n > 0 { SavedParses(c, h[n - 1], n - 1); }
    PutGet(d, n, s.record);
    hide SavedAfter, Parse, Get, Put;
  }

  lemma MirrorDisk(c: Crypto, d: Disk, n: nat, s: Saved, bytes: Bytes)
    requires Laws(c) && ShowsTried(c, d, n, Some(s)) && Torn(c, s.record, bytes)
    ensures ShowsTried(c, Put(d, n, bytes), n, Some(s))
  {
    hide Parse, Get, Put, HeaderRules, SealNext, Laws;
    SavedParses(c, s, n);
    PutGet(d, n, bytes);
  }

  lemma TriedBecomesLast(c: Crypto, d: Disk, h: seq<Saved>, s: Saved)
    requires ShowsTried(c, d, |h|, Some(s)) && Chain(c, h)
    ensures ShowsLast(c, d, h + [s]) && Chain(c, h + [s])
  {
    hide SavedAfter, Parse, Get, Put, Generation;
    PutGet(d, |h|, []);
    var g := h + [s];
    forall i | 0 <= i < |g| ensures SavedAfter(c, g[i], i) {
      if i < |h| { assert g[i] == h[i]; }
    }
    assert |g| == |h| + 1 && g[|g| - 1] == s;
  }

  lemma FirstCopyKeeps(c: Crypto, w: World, e: Event)
    requires Laws(c) && Inv(c, w) && w.live.Some? && w.live.value.candidate.Some?
    requires e.Tear? || e.Flush?
    ensures Inv(c, Step(c, w, e)) && Step(c, w, e).history == w.history
  {
    hide Laws, Chain, Get, Put, Parse, Torn, HeaderRules, SealNext, Behind, ShowsTried;
    var s, p := w.live.value.candidate.value, w.live.value.progress;
    assert s.vault.generation == |w.history|;
    assert p.Unwritten? || p.Writing? ==> Anchored(c, w.disk, w.history);
    hide SavedAfter, ShowsLast, Anchored;
    if p.Unwritten? || p.Writing? {
      FlushDisk(c, w.disk, w.history, s);
      if e.Tear? && Torn(c, s.record, e.bytes) { TearDisk(c, w.disk, w.history, s, e.bytes); }
    }
  }

  lemma MirrorKeeps(c: Crypto, w: World, e: Event)
    requires Laws(c) && Inv(c, w) && w.live.Some? && w.live.value.candidate.Some?
    requires e.TearMirror? || e.FlushMirror?
    ensures Inv(c, Step(c, w, e)) && Step(c, w, e).history == w.history
  {
    hide ShowsLast, ShowsTried, Anchored, Get, Put, Chain, Laws, Parse, HeaderRules, SealNext;
    var s, p := w.live.value.candidate.value, w.live.value.progress;
    if !p.Unwritten? && !p.Writing? {
      MirrorDisk(c, w.disk, |w.history|, s, if e.TearMirror? && Torn(c, s.record, e.bytes) then e.bytes else s.record);
    }
    assert s.vault.generation == |w.history|;
    hide SavedAfter;
  }

  /** Committing installs the candidate's generation, and the order check inside the vault never refuses it. */
  lemma CommitKeeps(c: Crypto, w: World)
    requires Laws(c) && Inv(c, w) && w.live.Some? && w.live.value.candidate.Some?
    ensures var r := Step(c, w, Commit);
            && Inv(c, r)
            && r.history == if w.live.value.progress.Flushed? || w.live.value.progress.Mirrored?
                            then w.history + [w.live.value.candidate.value] else w.history
  {
    hide ShowsLast, ShowsTried, Anchored, Get, Put, Chain, Laws, Parse, HeaderRules;
    var s, p := w.live.value.candidate.value, w.live.value.progress;
    assert Committed(s.vault, |w.history| + 1).Ok?;
    if !p.Unwritten? && !p.Writing? { TriedBecomesLast(c, w.disk, w.history, s); }
    assert s.vault.generation == |w.history|;
    hide SavedAfter;
  }

  lemma ReopenKeeps(c: Crypto, w: World, profile: Bytes, credential: Credential)
    requires Laws(c) && Inv(c, w) && w.live.None?
    ensures var r := Step(c, w, Reopen(profile, credential)); Inv(c, r) && w.history <= r.history && |r.history| <= |w.history| + 1
  {
    hide Find, Open, Generation, Laws, Behind, Parse, HeaderRules, SealNext;
    Chooses(c, w);
    var n := |w.history|;
    if n > 0 { SavedParses(c, w.history[n - 1], n - 1); }
    if ShowsTried(c, w.disk, n, w.tried) {
      SavedParses(c, w.tried.value, n);
      TriedBecomesLast(c, w.disk, w.history, w.tried.value);
    }
    var best := Find(c, w.disk);
    if best.Ok? { OpenGeneration(c, profile, credential, best.value); }
    hide SavedAfter, ShowsLast, ShowsTried, Chain;
  }

  lemma OpenGeneration(c: Crypto, profile: Bytes, credential: Credential, bytes: Bytes)
    ensures var r := Open(c, profile, credential, bytes); r.Ok? ==> r.value.0.generation == Generation(c, bytes)
  {
    hide Parse;
  }

  lemma StepKeeps(c: Crypto, w: World, e: Event)
    requires Laws(c) && Inv(c, w)
    ensures Inv(c, Step(c, w, e))
    ensures w.history <= Step(c, w, e).history && |Step(c, w, e).history| <= |w.history| + 1
  {
    hide SavedAfter, ShowsLast, ShowsTried, Anchored, Get, Put, Find, Open, Chain, Laws;
    if w.live.None? {
      if e.Reopen? { ReopenKeeps(c, w, e.profile, e.credential); }
    } else if w.live.value.candidate.None? {
      if e.Seal? { SealKeeps(c, w, e.header, e.text, e.nonce); }
    } else {
      match e
      case Tear(_) => FirstCopyKeeps(c, w, e);
      case Flush => FirstCopyKeeps(c, w, e);
      case TearMirror(_) => MirrorKeeps(c, w, e);
      case FlushMirror => MirrorKeeps(c, w, e);
      case Commit => CommitKeeps(c, w);
      case _ =>
    }
  }

  lemma {:induction false} RunKeeps(c: Crypto, w: World, es: seq<Event>)
    requires Laws(c) && Inv(c, w)
    ensures Inv(c, Run(c, w, es)) && w.history <= Run(c, w, es).history
    decreases |es|
  {
    if es != [] {
      StepKeeps(c, w, es[0]);
      hide Step, Inv;
      RunKeeps(c, Step(c, w, es[0]), es[1..]);
    }
  }

  lemma StartInv(c: Crypto, v: Vault)
    requires v.generation == 0
    ensures Inv(c, Start(c, v))
  {
  }

  // ----- what recovery finds

  /** After any run from a new profile, dead or alive at whatever step, the newest record in the two slots is the last
      committed state or the candidate sealed last, and nothing is found only while nothing was ever committed. The
      states committed are numbered 1, 2, 3, ... without a gap. */
  lemma NeverGoesBack(c: Crypto, v: Vault, es: seq<Event>)
    requires Laws(c) && v.generation == 0
    ensures var w := Run(c, Start(c, v), es);
            var newest := Find(c, w.disk);
            && (newest.Err? ==> w.history == [])
            && (newest.Ok? ==>
                  || (w.history != [] && newest.value == w.history[|w.history| - 1].record
                      && Generation(c, newest.value) == |w.history|)
                  || (w.tried.Some? && newest.value == w.tried.value.record && Generation(c, newest.value) == |w.history| + 1))
            && (forall i :: 0 <= i < |w.history| ==> Generation(c, w.history[i].record) == i + 1)
  {
    StartInv(c, v);
    RunKeeps(c, Start(c, v), es);
    var w := Run(c, Start(c, v), es);
    hide Run, Parse, SealNext, Find, HeaderRules, Get, Put;
    Chooses(c, w);
    forall i | 0 <= i < |w.history| ensures Generation(c, w.history[i].record) == i + 1 {
      SavedParses(c, w.history[i], i);
    }
    if ShowsTried(c, w.disk, |w.history|, w.tried) { SavedParses(c, w.tried.value, |w.history|); }
  }

  /** A candidate whose first copy was flushed. */
  ghost predicate Settled(c: Crypto, w: World) {
    && ShowsTried(c, w.disk, |w.history|, w.tried)
    && (w.live.Some? ==> w.live.value.candidate.Some? && !w.live.value.progress.Unwritten? && !w.live.value.progress.Writing?)
  }

  lemma FoundAtLeast(c: Crypto, w: World, n: nat)
    requires Laws(c) && Inv(c, w) && (n <= |w.history| || (n == |w.history| + 1 && Settled(c, w)))
    ensures n > 0 ==> Find(c, w.disk).Ok? && Generation(c, Find(c, w.disk).value) >= n
  {
    hide Find, Parse, Laws, SealNext, HeaderRules, Get;
    Chooses(c, w);
    var m := |w.history|;
    if m > 0 { SavedParses(c, w.history[m - 1], m - 1); }
    if ShowsTried(c, w.disk, m, w.tried) { SavedParses(c, w.tried.value, m); }
  }

  lemma SettledStep(c: Crypto, w: World, e: Event)
    requires Laws(c) && Inv(c, w) && Settled(c, w)
    ensures var r := Step(c, w, e); Settled(c, r) || |r.history| == |w.history| + 1
  {
    hide Find, Open, Generation, Laws, SavedAfter, ShowsLast, Anchored, Get, Put, Chain;
    if w.live.None? {
      FoundAtLeast(c, w, |w.history| + 1);
      Chooses(c, w);
      SavedParses(c, w.tried.value, |w.history|);
    } else {
      match e
      case TearMirror(_) => MirrorKeeps(c, w, e);
      case FlushMirror => MirrorKeeps(c, w, e);
      case Commit => CommitKeeps(c, w);
      case _ =>
    }
    hide ShowsTried;
  }

  lemma {:induction false} SettledRun(c: Crypto, w: World, es: seq<Event>)
    requires Laws(c) && Inv(c, w) && Settled(c, w)
    ensures var r := Run(c, w, es); Inv(c, r) && (Settled(c, r) || |r.history| > |w.history|)
    decreases |es|
  {
    RunKeeps(c, w, es);
    if es != [] {
      StepKeeps(c, w, es[0]);
      SettledStep(c, w, es[0]);
      hide Step, Inv, Settled;
      var m := Step(c, w, es[0]);
      if Settled(c, m) { SettledRun(c, m, es[1..]); } else { RunKeeps(c, m, es[1..]); }
    }
  }

  /** Time runs forward between any two moments of a run: what is found later is at least as new as the last commit, and
      once the first copy of a candidate was flushed, at least as new as that candidate. */
  lemma LaterIsNewer(c: Crypto, v: Vault, es: seq<Event>, more: seq<Event>)
    requires Laws(c) && v.generation == 0
    ensures var w := Run(c, Start(c, v), es);
            var later := Run(c, w, more);
            var n := if w.live.Some? && w.live.value.candidate.Some? && w.live.value.progress in {Flushed, Mirroring, Mirrored}
                     then |w.history| + 1 else |w.history|;
            && w.history <= later.history
            && (n > 0 ==> Find(c, later.disk).Ok? && Generation(c, Find(c, later.disk).value) >= n)
  {
    StartInv(c, v);
    RunKeeps(c, Start(c, v), es);
    var w := Run(c, Start(c, v), es);
    RunKeeps(c, w, more);
    var later := Run(c, w, more);
    hide Run, Find, Generation, SavedAfter, Laws, Chain;
    if w.live.Some? && w.live.value.candidate.Some? && w.live.value.progress in {Flushed, Mirroring, Mirrored} {
      SettledRun(c, w, more);
      if Settled(c, later) {
        FoundAtLeast(c, later, |later.history| + 1);
      } else {
        FoundAtLeast(c, later, |w.history| + 1);
      }
    } else {
      FoundAtLeast(c, later, |w.history|);
    }
  }

  ghost predicate Fits(v: Vault, pass: Bytes, prfs: seq<Bytes>, credential: Credential) {
    || credential == Password(pass)
    || exists k :: 0 <= k < |prfs| && k < |v.header.passkeys| && credential == Key(v.header.passkeys[k].credential, prfs[k])
  }

  /** Recovery is exact: whichever saved state the slots show, its own password or any of its passkeys opens it to the
      vault one generation on and to the text that was sealed. */
  lemma RecoversExactly(c: Crypto, s: Saved, n: nat, pass: Bytes, prfs: seq<Bytes>, credential: Credential)
    requires Laws(c) && SavedAfter(c, s, n) && Sound(c, s.vault, pass, prfs) && Fits(s.vault, pass, prfs, credential)
    ensures Open(c, s.vault.header.profile, credential, s.record) == Ok((s.vault.(generation := n + 1), s.text))
  {
    hide SealNext, OpenPassword, OpenPasskey, Sound, CipherLaws, FormatLaws, HeaderRules, Committed;
    SealedOpens(c, s.vault, pass, prfs, s.text, s.nonce);
    if credential != Password(pass) {
      var k :| 0 <= k < |prfs| && k < |s.vault.header.passkeys|
               && credential == Key(s.vault.header.passkeys[k].credential, prfs[k]);
    }
  }
}
