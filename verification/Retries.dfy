/** Which failures let a letter try again: at the relay, and in the inbox. */
module Retries {
  import opened Prelude
  import opened Durable

  /** Of the ten ways a lookup can fail, the relay drops its copy on exactly those. */
  lemma LookupAckedExactly(s: Store, l: Letter, turn: bool, w: Write, grace: bool, sealed: bool, e: Error)
    requires l in s.post.relay
    ensures l in Step(s, Read(l, turn, w, grace, sealed, Lookup(e))).post.relay <==> !Final(e, grace)
  {
    ReadShape(s, Read(l, turn, w, grace, sealed, Lookup(e)));
    hide Step;
  }

  /** A letter that opens on the current session stays at the relay unless its commit fails for good; it is filed unless nothing
      was written. */
  lemma CommitAckedExactly(s: Store, l: Letter, turn: bool, w: Write, grace: bool, sealed: bool)
    requires l in s.post.relay && !Held(s.post, l) && Opens(Current(s.keys), l)
    ensures var t := Step(s, Read(l, turn, w, grace, sealed, Smooth)).post;
            && (l in t.relay <==> w == Written || !Final(w.error, grace))
            && (Held(t, l) <==> !w.Failed?)
            && (!w.Failed? ==> t.inbox == s.post.inbox[s.post.rows := Row(l, s.post.clock)])
            && (w.Failed? ==> t.inbox == s.post.inbox)
  {
    var e := Read(l, turn, w, grace, sealed, Smooth);
    ReadShape(s, e);
    if Stores(s, e) { StoredIsHeld(s, e); } else { HeldSame(s.post, Step(s, e).post, l); }
    hide Step, Held;
  }

  /** A letter nothing opens is dropped at once when it came sealed, and otherwise while a session is fresh. */
  lemma UnreadAckedExactly(s: Store, l: Letter, turn: bool, w: Write, grace: bool, sealed: bool, h: Hitch)
    requires l in s.post.relay && (h.Unopened? || (h.Smooth? && !OpensAnywhere(s.keys, l)))
    ensures var t := Step(s, Read(l, turn, w, grace, sealed, h)).post;
            (l in t.relay <==> !sealed && !grace) && t.inbox == s.post.inbox
  {
    ReadShape(s, Read(l, turn, w, grace, sealed, h));
    hide Step, OpensAnywhere;
  }

  // ----- at the relay

  /** A read that fails in passing, in a lookup or in its commit. */
  predicate Stumbles(e: Event) {
    && e.Read? && (e.hitch.Smooth? ==> e.write.Failed? && Passing(e.write.error)) && (e.hitch.Lookup? ==> Passing(e.hitch.error))
    && !e.hitch.Unopened?
  }

  /** No read of `l` but those that fail in passing. */
  predicate AllStumble(es: seq<Event>, l: Letter) { forall i :: 0 <= i < |es| && es[i].Read? && es[i].letter == l ==> Stumbles(es[i]) }

  lemma NotHeldByOthers(s: Store, e: Event, l: Letter)
    requires !Held(s.post, l) && (e.Read? ==> e.letter != l)
    ensures !Held(Step(s, e).post, l)
  {
    if e.Read? {
      if e.letter in s.post.relay { ReadShape(s, e); }
      hide Step;
    } else {
      hide KeyStep, IsTransient, MayArrive;
    }
  }

  lemma Waits(s: Store, e: Event, l: Letter)
    requires LettersOk(s) && Established(s.keys, e) && l in s.post.relay && !l.aside && !Held(s.post, l)
    requires e.Read? && e.letter == l ==> Stumbles(e)
    ensures l in Step(s, e).post.relay && !Held(Step(s, e).post, l)
  {
    if e.Read? && e.letter == l {
      OpensHere(s, l);
      hide LettersOk, Opens;
      if e.hitch.Smooth? {
        CommitAckedExactly(s, l, e.turn, e.write, e.grace, e.sealed);
      } else {
        LookupAckedExactly(s, l, e.turn, e.write, e.grace, e.sealed, e.hitch.error);
        ReadShape(s, e);
        HeldSame(s.post, Step(s, e).post, l);
      }
      hide Step, Held;
    } else {
      NotHeldByOthers(s, e, l);
      if e.Read? {
        if e.letter in s.post.relay { ReadShape(s, e); }
      } else {
        OtherLetters(s, e);
      }
      hide Step, Held, RingOk, Established;
    }
  }

  lemma OpensHere(s: Store, l: Letter)
    requires LettersOk(s) && l in s.post.relay && !l.aside && !Held(s.post, l)
    ensures Opens(Current(s.keys), l)
  {
    ArrivedOpens(s, l);
    assert SpentHeld(s.post, Current(s.keys).value);
    hide Held;
  }

  lemma {:induction false} WaitsAlong(s: Store, es: seq<Event>, l: Letter)
    requires LettersOk(s) && AllEstablished(s, es) && AllStumble(es, l)
    requires l in s.post.relay && !l.aside && !Held(s.post, l)
    ensures var t := Run(s, es); LettersOk(t) && l in t.post.relay && !Held(t.post, l)
    decreases |es|
  {
    if es != [] {
      assert AllStumble(es[1..], l) by { assert forall i :: 0 <= i < |es[1..]| ==> es[1..][i] == es[i + 1]; }
      hide LettersOk, Established, Step, Held, Stumbles;
      Waits(s, es[0], l);
      LettersKept(s, es[0]);
      WaitsAlong(Step(s, es[0]), es[1..], l);
    }
  }

  /** However often reading a letter of the current session fails in passing, and whatever else happens to an established contact
      meanwhile: the relay keeps its copy, and the first read that is written stores it, together with a ratchet no power loss
      takes back. */
  lemma TriedUntilStored(s: Store, es: seq<Event>, l: Letter, turn: bool, grace: bool, sealed: bool)
    requires LettersOk(s) && AllEstablished(s, es) && AllStumble(es, l)
    requires l in s.post.relay && !l.aside && !Held(s.post, l)
    ensures var t := Run(s, es);
            var u := Step(t, Read(l, turn, Written, grace, sealed, Smooth));
            && l in t.post.relay && !Held(t.post, l)
            && u.post.inbox == t.post.inbox[t.post.rows := Row(l, t.post.clock)]
            && (forall i :: var v := Step(u, PowerLoss(i)); v.keys.disk.Some? && l in v.keys.disk.value.spent && v.post.inbox == u.post.inbox)
  {
    WaitsAlong(s, es, l);
    var t := Run(s, es);
    OpensHere(t, l);
    CommitAckedExactly(t, l, turn, Written, grace, sealed);
    hide LettersOk, Run, AllEstablished, AllStumble, Held;
    ReadSurvives(t, l, turn, grace, sealed);
  }

  lemma ReadSurvives(t: Store, l: Letter, turn: bool, grace: bool, sealed: bool)
    requires l in t.post.relay && Opens(Current(t.keys), l)
    ensures var u := Step(t, Read(l, turn, Written, grace, sealed, Smooth));
            forall i :: var v := Step(u, PowerLoss(i)); v.keys.disk.Some? && l in v.keys.disk.value.spent && v.post.inbox == u.post.inbox
  {
    KeysOf(t, Read(l, turn, Written, grace, sealed, Smooth));
  }

  /** A stored letter is acknowledged once it has been processed, whatever came of that, and not before. */
  lemma AckedOnceProcessed(s: Store, l: Letter, turn: bool, grace: bool, sealed: bool, failure: Option<Error>, removed: bool)
    requires l in s.post.relay && Opens(Current(s.keys), l)
    ensures var row := s.post.rows;
            var t := Step(s, Read(l, turn, Written, grace, sealed, Smooth));
            var u := Step(t, Process(row, failure, removed));
            && l in t.post.relay && l in Step(t, Ack(l)).post.relay && l in u.post.relay
            && Step(u, Ack(l)).post.relay == s.post.relay - {l} && l !in Step(u, Ack(l)).post.handling
  {
    var t := Step(s, Read(l, turn, Written, grace, sealed, Smooth));
    assert t.post == Filed(s.post, l, Written);
    hide KeyStep, ReadKeys, Opens, IsTransient, AckedOn;
  }

  // ----- in the inbox

  /** A row whose processing fails in passing stays; after success or any other failure its letter is settled and the row goes if
      it can be removed. Nothing happens to the other rows. */
  lemma ProcessedExactly(p: Post, row: nat, failure: Option<Error>, removed: bool)
    requires row in p.inbox
    ensures var t := ProcessedRow(p, row, failure, removed);
            var again := failure.Some? && Passing(failure.value);
            && t.inbox == (if again || !removed then p.inbox else p.inbox - {row})
            && t.settled == (if again then p.settled else p.settled + {p.inbox[row].letter})
            && t.relay == p.relay && t.rows == p.rows && t.arrived == p.arrived && t.expired == p.expired && t.refused == p.refused
            && t.handling.Keys == p.handling.Keys
  {
  }

  /** A row goes if and only if its letter was processed with success or a lasting failure and the row could be removed, or it is
      swept after a week. */
  lemma RowLeavesExactly(s: Store, e: Event, row: nat)
    requires row in s.post.inbox
    ensures row !in Step(s, e).post.inbox <==>
            || (e.Process? && e.row == row && e.removed && !(e.failure.Some? && Passing(e.failure.value)))
            || (e.Sweep? && s.post.inbox[row].at < s.post.clock - 604_800_000)
  {
    if e.Read? && e.letter in s.post.relay { ReadShape(s, e); }
    if e.Process? && e.row in s.post.inbox { ProcessedExactly(s.post, e.row, e.failure, e.removed); }
    hide ReadOn, Held, KeyStep, ProcessedRow;
  }

  /** Whether draining settles a row: the receive path is not at it, and it does not fail in passing. */
  predicate Settles(p: Post, row: nat, outcome: nat -> Outcome) {
    && row in p.inbox && !(p.inbox[row].letter in p.handling && p.handling[p.inbox[row].letter] == Storing(row))
    && !(outcome(row).failure.Some? && Passing(outcome(row).failure.value))
  }

  /** Draining settles exactly the letters of the listed rows that nobody else is at and that do not fail in passing, and removes
      of these rows exactly those that can be. */
  lemma {:induction false} DrainedExactly(p: Post, pending: seq<nat>, outcome: nat -> Outcome)
    requires Distinct(pending)
    ensures var t := Drained(p, pending, outcome);
            && t.handling == p.handling && t.relay == p.relay
            && (forall row :: row in t.inbox <==> row in p.inbox && !(row in pending && Settles(p, row, outcome) && outcome(row).removed))
            && (forall row :: row in t.inbox ==> t.inbox[row] == p.inbox[row])
            && (forall l :: l in t.settled <==> l in p.settled || exists row :: row in pending && Settles(p, row, outcome) && p.inbox[row].letter == l)
    decreases |pending|
  {
    if pending != [] {
      var row, rest := pending[0], pending[1..];
      assert forall i :: 0 <= i < |rest| ==> rest[i] == pending[i + 1];
      var q := if row !in p.inbox || Busy(p, row) then p else ProcessedRow(p, row, outcome(row).failure, outcome(row).removed);
      if row in p.inbox && !Busy(p, row) { ProcessedExactly(p, row, outcome(row).failure, outcome(row).removed); }
      assert q.handling == p.handling && q.relay == p.relay;
      DrainedExactly(q, rest, outcome);
      assert row !in rest;
      assert forall r :: r in rest ==> (Settles(q, r, outcome) <==> Settles(p, r, outcome));
      hide ProcessedRow, Busy;
    }
  }

  // ----- what sessions are left with

  /** Reading on the current session leaves the cached and the stored ratchet the same: the letter spent and nothing else, on the
      chain there was, or on a new one from its start if theirs had turned. */
  lemma ReadLeaves(s: Store, l: Letter, turn: bool, grace: bool, sealed: bool)
    requires l in s.post.relay && Opens(Current(s.keys), l)
    ensures var k, r := Step(s, Read(l, turn, Written, grace, sealed, Smooth)).keys, Current(s.keys).value;
            var q := if turn then Ratchet(s.keys.chains, 0, r.spent + {l}) else Ratchet(r.chain, r.next, r.spent + {l});
            k.mem == Some(q) && k.disk == Some(q) && k.chains == s.keys.chains + 1 && k.wire == s.keys.wire && k.lost == s.keys.lost
  {
    KeysOf(s, Read(l, turn, Written, grace, sealed, Smooth));
    hide Step;
  }

  /** A session we open, and one the other side's init opens, forgets the one set aside whether or not it can be saved. Saved, it
      starts on a chain of its own: ours after the index its init was sent with, theirs from the first index and safe from power
      loss. Not saved, nothing else changes and nothing is sent. */
  lemma OpeningLeaves(s: Store, w: Write, i: nat)
    ensures var k, was := Step(s, Start(w)).keys, s.keys;
            && k.lost == None && k.chains == was.chains + 1
            && k.mem == (if w.Written? then Some(Ratchet(was.chains, 1, {})) else was.mem)
            && k.disk == (if w.Failed? then was.disk else Some(Ratchet(was.chains, 1, {})))
            && k.wire == was.wire + (if w.Written? then [Sealed(was.chains, 0)] else [])
    ensures var k, was := Step(s, Replace(w)).keys, s.keys;
            && k.lost == None && k.chains == was.chains + 1 && k.wire == was.wire
            && k.mem == (if w.Written? then Some(Ratchet(was.chains, 0, {})) else was.mem)
            && k.disk == (if w.Failed? then was.disk else Some(Ratchet(was.chains, 0, {})))
            && (!w.Failed? ==> Step(Step(s, Replace(w)), PowerLoss(i)).keys.disk == k.disk)
  {
    Nil(s.keys.wire);
  }
}
