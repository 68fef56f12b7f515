/** What the browser engine keeps about one peer, and how `encrypt` and `decrypt` change it. */
module EnginePeer {
  import opened Prelude
  import opened Crossing

  const MAX_ALTERNATES := 3
  const FRESH_SESSION_GRACE_MS := 60_000

  /** Our unanswered init: its ratchet key and when it was made. */
  datatype OwnInit = OwnInit(dh: Key, ts: I64)

  /** The entries of `sessions`, `own_inits`, `lost_inits` and `alternates` for one peer. */
  datatype Slots = Slots(session: Option<Ratchet>, own: Option<OwnInit>, lost: Option<Ratchet>, alts: seq<Ratchet>)

  const NO_SLOTS := Slots(None, None, None, [])

  /** A replaced session goes to the front of the alternates, the oldest of which falls off. */
  function PushAlternate(alts: seq<Ratchet>, replaced: Option<Ratchet>): seq<Ratchet> {
    if replaced.None? then alts
    else
      var more := [replaced.value] + alts;
      if |more| > MAX_ALTERNATES then more[..MAX_ALTERNATES] else more
  }

  predicate Fresh(own: Option<OwnInit>, now: Millis) {
    own.Some? && -FRESH_SESSION_GRACE_MS < now - own.value.ts < FRESH_SESSION_GRACE_MS
  }

  predicate Crossed(p: Slots) { p.own.Some? && p.session.Some? && p.lost.None? }

  /** `encrypt` to a peer without a session: `r` is what X3DH set up. */
  function Initiated(p: Slots, r: Ratchet, own: OwnInit): Slots {
    Slots(Some(r), Some(own), None, PushAlternate(p.alts, p.session))
  }

  /** `decrypt` of an init the responder accepted as `r`. */
  function InitTaken(p: Slots, r: Ratchet, now: Millis, oursStands: bool): Slots {
    if Crossed(p) && Fresh(p.own, now) && oursStands then p.(lost := Some(r))
    else Slots(Some(r), None, None, PushAlternate(p.alts, p.session))
  }

  /** A decryption attempt on a clone of a ratchet: the advanced ratchet when it opens. */
  type Attempt = Ratchet -> Option<Ratchet>

  /** The alternates with the first that opens advanced. */
  function AlternateRead(alts: seq<Ratchet>, attempt: Attempt): Option<seq<Ratchet>> {
    if alts == [] then None
    else if attempt(alts[0]).Some? then Some([attempt(alts[0]).value] + alts[1..])
    else
      var rest := AlternateRead(alts[1..], attempt);
      if rest.Some? then Some([alts[0]] + rest.value) else None
  }

  /** `decrypt` of a ratchet message: primary session, then the lost one, then the alternates. */
  function LetterRead(p: Slots, attempt: Attempt): Option<Slots> {
    if p.session.Some? && attempt(p.session.value).Some? then
      Some(p.(session := attempt(p.session.value), own := None))
    else if p.lost.Some? && attempt(p.lost.value).Some? then Some(p.(lost := attempt(p.lost.value)))
    else
      var alts := AlternateRead(p.alts, attempt);
      if alts.Some? then Some(p.(alts := alts.value)) else None
  }
}
