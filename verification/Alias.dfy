/** First-come alias arbitration over an unordered bag of values found under the alias's key. */
module Alias {
  import opened Prelude
  import opened Wire
  import opened Sealing

  const KIND_ALIAS_CLAIM: byte := 3
  const KIND_ALIAS_TOMBSTONE: byte := 4
  const ALIAS_CLAIM_TTL_MS := 366 * DAY_MS
  const ALIAS_TOMBSTONE_TTL_MS := 10 * 366 * DAY_MS

  datatype Record = Record(owner: Key, created: U64, expires: U64, payload: Option<Bytes>)

  datatype AliasState = Available | Claimed(record: Record) | Revoked(record: Record)

  /** A value of the network; the wrapper keeps a bag of values from being a list of lists. */
  datatype Value = Value(bytes: Bytes)

  predicate Word(b: byte) { 48 <= b <= 57 || 65 <= b <= 90 || 97 <= b <= 122 || b == 95 }

  predicate ValidAlias(alias: Bytes) { 3 <= |alias| <= 32 && forall i :: 0 <= i < |alias| ==> Word(alias[i]) }

  // ----- records on the wire

  datatype Body = Body(alias: Bytes, payload: Option<Bytes>)

  datatype Signed = Signed(kind: byte, owner: Key, created: U64, expires: U64, body: Bytes, sig: Bytes)

  function PutOption(o: Option<Bytes>): Bytes { if o.None? then [0] else [1] + PutBlob(o.value) }

  function ReadOption(s: Bytes): Read<Option<Bytes>> {
    if s == [] then None
    else if s[0] == 0 then Some((None, s[1..]))
    else if s[0] == 1 then
      var b := ReadBlob(s[1..]);
      if b.None? then None else Some((Some(b.value.0), b.value.1))
    else None
  }

  function PutBody(b: Body): Bytes { PutBlob(b.alias) + PutOption(b.payload) }

  function ReadBody(s: Bytes): Option<Body> {
    var alias := ReadBlob(s);
    if alias.None? then None
    else
      var payload := ReadOption(alias.value.1);
      if payload.None? then None else Some(Body(alias.value.0, payload.value.0))
  }

  function PutSigned(r: Signed): Bytes {
    [r.kind] + (r.owner + (PutU64(r.created) + (PutU64(r.expires) + (PutBlob(r.body) + r.sig))))
  }

  function ReadTime(s: Bytes): Read<U64> {
    var n := ReadU64(s);
    if n.None? || n.value.0 >= TWO64 then None else Some((n.value.0, n.value.1))
  }

  function ReadSigned(s: Bytes): Option<Signed> {
    var kind := ReadU8(s);
    if kind.None? then None
    else
      var owner := ReadKey(kind.value.1);
      if owner.None? then None
      else
        var created := ReadTime(owner.value.1);
        if created.None? then None
        else
          var expires := ReadTime(created.value.1);
          if expires.None? then None
          else
            var body := ReadBlob(expires.value.1);
            if body.None? || |body.value.1| < 64 then None
            else Some(Signed(kind.value.0, owner.value.0, created.value.0, expires.value.0, body.value.0, body.value.1[..64]))
  }

  /** What a signature covers: the whole record and the key it is stored under. */
  function RecordDigest(c: Crypto, kind: byte, owner: Key, created: U64, expires: U64, body: Bytes, key: Key): Key {
    c.digest([kind] + owner + PutU64(created) + PutU64(expires) + c.digest(body) + key)
  }

  function AliasKey(c: Crypto, alias: Bytes): Key { c.digest(alias) }

  function AliasSecret(c: Crypto, key: Key): Key { c.derive(AliasSecretLabel, key) }

  // ----- building

  /** `build_alias_record`: the value to store. */
  function Build(c: Crypto, signing: Key, alias: Bytes, now: U64, ttl: U64, created: U64, payload: Option<Bytes>,
                 tombstone: bool, nonce: Bytes): Option<Value>
  {
    if !ValidAlias(alias) || created > now then None
    else
      var key := AliasKey(c, alias);
      var body := PutBody(Body(alias, payload));
      var kind := if tombstone then KIND_ALIAS_TOMBSTONE else KIND_ALIAS_CLAIM;
      var owner, expires := c.verifying(signing), (now + ttl) % TWO64;
      var sig := c.sign(signing, RecordDigest(c, kind, owner, created, expires, body, key));
      var sealed := Seal(c, AliasSecret(c, key), AliasLabel, key, PutSigned(Signed(kind, owner, created, expires, body, sig)), nonce);
      if sealed.None? then None else Some(Value(sealed.value))
  }

  function ClaimRecord(c: Crypto, signing: Key, alias: Bytes, now: U64, payload: Option<Bytes>, nonce: Bytes): Option<Value> {
    Build(c, signing, alias, now, ALIAS_CLAIM_TTL_MS, now, payload, false, nonce)
  }

  function ClaimRenewal(c: Crypto, signing: Key, alias: Bytes, now: U64, created: U64, payload: Option<Bytes>, nonce: Bytes): Option<Value> {
    Build(c, signing, alias, now, ALIAS_CLAIM_TTL_MS, created, payload, false, nonce)
  }

  function TombstoneRecord(c: Crypto, signing: Key, alias: Bytes, now: U64, nonce: Bytes): Option<Value> {
    Build(c, signing, alias, now, ALIAS_TOMBSTONE_TTL_MS, now, None, true, nonce)
  }

  // ----- opening

  datatype Found = Claim(record: Record) | Tombstone(record: Record)

  /** One value, if it is a claim or tombstone of this alias, in its time and properly signed. */
  function OpenOne(c: Crypto, alias: Bytes, key: Key, v: Value, now: U64): Option<Found> {
    var plain := Open(c, AliasSecret(c, key), AliasLabel, key, v.bytes);
    if plain.None? then None
    else
      var read := ReadSigned(plain.value);
      if read.None? then None
      else
        var s := read.value;
        if (s.kind != KIND_ALIAS_CLAIM && s.kind != KIND_ALIAS_TOMBSTONE) || s.created > now || s.expires <= now then None
        else
          var body := ReadBody(s.body);
          if body.None? || body.value.alias != alias then None
          else if !c.verify(s.owner, RecordDigest(c, s.kind, s.owner, s.created, s.expires, s.body, key), s.sig) then None
          else if s.kind == KIND_ALIAS_CLAIM then Some(Claim(Record(s.owner, s.created, s.expires, body.value.payload)))
          else Some(Tombstone(Record(s.owner, s.created, s.expires, None)))
  }

  /** What the values say, in their order. */
  function Opened(c: Crypto, alias: Bytes, values: seq<Value>, now: U64): seq<Found> {
    if values == [] then []
    else
      var f := OpenOne(c, alias, AliasKey(c, alias), values[|values| - 1], now);
      Opened(c, alias, values[..|values| - 1], now) + if f.Some? then [f.value] else []
  }

  function Claims(fs: seq<Found>): seq<Record> {
    if fs == [] then []
    else Claims(fs[..|fs| - 1]) + if fs[|fs| - 1].Claim? then [fs[|fs| - 1].record] else []
  }

  function Tombstones(fs: seq<Found>): seq<Record> {
    if fs == [] then []
    else Tombstones(fs[..|fs| - 1]) + if fs[|fs| - 1].Tombstone? then [fs[|fs| - 1].record] else []
  }

  // ----- judging

  predicate PayloadLess(a: Option<Bytes>, b: Option<Bytes>) {
    b.Some? && (a.None? || Less(a.value, b.value))
  }

  /** The tie-break between two claims of one owner. */
  predicate Older(a: Record, b: Record) {
    a.created < b.created
    || (a.created == b.created && (a.expires < b.expires || (a.expires == b.expires && PayloadLess(a.payload, b.payload))))
  }

  /** The order between owners: founding time, then key. */
  predicate Senior(a: Record, b: Record) {
    a.created < b.created || (a.created == b.created && Less(a.owner, b.owner))
  }

  /** Both in one: time, owner, then the tie-break. */
  predicate Before(a: Record, b: Record) { Senior(a, b) || (a.owner == b.owner && Older(a, b)) }

  /** The claim that stands before all others. */
  function Founding(claims: seq<Record>): Option<Record> {
    if claims == [] then None
    else
      var best, last := Founding(claims[..|claims| - 1]), claims[|claims| - 1];
      if best.None? || Before(last, best.value) then Some(last) else best
  }

  /** The first tombstone of an owner, in the order found. */
  function FirstOf(ts: seq<Record>, owner: Key): Option<Record> {
    if ts == [] then None
    else
      var first, last := FirstOf(ts[..|ts| - 1], owner), ts[|ts| - 1];
      if first.Some? then first else if last.owner == owner then Some(last) else None
  }

  /** The first of the most senior tombstones. */
  function MostSenior(ts: seq<Record>): Option<Record> {
    if ts == [] then None
    else
      var best, last := MostSenior(ts[..|ts| - 1]), ts[|ts| - 1];
      if best.None? || Senior(last, best.value) then Some(last) else best
  }

  function Judge(fs: seq<Found>): AliasState {
    var claim := Founding(Claims(fs));
    if claim.Some? then
      var t := FirstOf(Tombstones(fs), claim.value.owner);
      if t.Some? then Revoked(t.value) else Claimed(claim.value)
    else
      var t := MostSenior(Tombstones(fs));
      if t.Some? then Revoked(t.value) else Available
  }

  /** `alias_state`. */
  function StateOf(c: Crypto, alias: Bytes, values: seq<Value>, now: U64): AliasState {
    if !ValidAlias(alias) then Available else Judge(Opened(c, alias, values, now))
  }

  // ----- the orders are total

  lemma OlderTotal(a: Record, b: Record)
    requires a.owner == b.owner
    ensures a != b ==> Older(a, b) != Older(b, a)
    ensures a == b ==> !Older(a, b)
  {
    if a.payload.Some? && b.payload.Some? { LessTrichotomy(a.payload.value, b.payload.value); }
  }

  lemma BeforeTotal(a: Record, b: Record)
    ensures a != b ==> Before(a, b) != Before(b, a)
    ensures a == b ==> !Before(a, b)
  {
    LessTrichotomy(a.owner, b.owner);
    if a.owner == b.owner { OlderTotal(a, b); }
    hide Less;
  }

  lemma OlderTransitive(a: Record, b: Record, d: Record)
    requires Older(a, b) && Older(b, d)
    ensures Older(a, d)
  {
    if a.payload.Some? && b.payload.Some? && d.payload.Some? && Less(a.payload.value, b.payload.value) && Less(b.payload.value, d.payload.value) {
      LessTransitive(a.payload.value, b.payload.value, d.payload.value);
    }
  }

  lemma SeniorTransitive(a: Record, b: Record, d: Record)
    requires Senior(a, b) && Senior(b, d)
    ensures Senior(a, d)
  {
    if Less(a.owner, b.owner) && Less(b.owner, d.owner) { LessTransitive(a.owner, b.owner, d.owner); }
  }

  lemma BeforeTransitive(a: Record, b: Record, d: Record)
    requires Before(a, b) && Before(b, d)
    ensures Before(a, d)
  {
    hide Less;
    if Senior(a, b) && Senior(b, d) { SeniorTransitive(a, b, d); }
    if a.owner == b.owner && b.owner == d.owner && Older(a, b) && Older(b, d) { OlderTransitive(a, b, d); }
  }

  // ----- what the picks are, without saying how they are found

  ghost predicate FirstInLine(r: Record, claims: seq<Record>) {
    r in claims && forall d :: d in claims ==> !Before(d, r)
  }

  lemma {:induction false} FoundingIsFirst(claims: seq<Record>)
    ensures Founding(claims).None? <==> claims == []
    ensures Founding(claims).Some? ==> FirstInLine(Founding(claims).value, claims)
    decreases |claims|
  {
    if claims != [] {
      hide Before;
      var front, last := claims[..|claims| - 1], claims[|claims| - 1];
      FoundingIsFirst(front);
      assert claims == front + [last];
      var best := Founding(front);
      BeforeTotal(last, last);
      if best.Some? {
        BeforeTotal(best.value, last);
        if Before(last, best.value) {
          forall d | d in claims ensures !Before(d, last) {
            if Before(d, last) { BeforeTransitive(d, last, best.value); }
          }
        }
      }
    }
  }

  lemma OneFirst(r: Record, s: Record, claims: seq<Record>)
    requires FirstInLine(r, claims) && FirstInLine(s, claims)
    ensures r == s
  {
    BeforeTotal(r, s);
  }

  lemma {:induction false} FirstOfOwner(ts: seq<Record>, owner: Key)
    ensures FirstOf(ts, owner).Some? <==> exists t :: t in ts && t.owner == owner
    ensures FirstOf(ts, owner).Some? ==> FirstOf(ts, owner).value in ts && FirstOf(ts, owner).value.owner == owner
    decreases |ts|
  {
    if ts != [] {
      var front, last := ts[..|ts| - 1], ts[|ts| - 1];
      FirstOfOwner(front, owner);
      assert ts == front + [last];
      assert forall t :: t in ts <==> t in front || t == last;
    }
  }

  ghost predicate NoneSenior(r: Record, ts: seq<Record>) { r in ts && forall t :: t in ts ==> !Senior(t, r) }

  lemma {:induction false} MostSeniorIsFirst(ts: seq<Record>)
    ensures MostSenior(ts).None? <==> ts == []
    ensures MostSenior(ts).Some? ==> NoneSenior(MostSenior(ts).value, ts)
    decreases |ts|
  {
    if ts != [] {
      var front, last := ts[..|ts| - 1], ts[|ts| - 1];
      MostSeniorIsFirst(front);
      assert ts == front + [last];
      LessTrichotomy(last.owner, last.owner);
      var best := MostSenior(front);
      if best.Some? && Senior(last, best.value) {
        forall t | t in ts ensures !Senior(t, last) {
          if Senior(t, last) { SeniorTransitive(t, last, best.value); }
        }
      }
    }
  }

  lemma OneOwnerSenior(r: Record, s: Record, ts: seq<Record>)
    requires NoneSenior(r, ts) && NoneSenior(s, ts)
    ensures r.owner == s.owner
  {
    LessTrichotomy(r.owner, s.owner);
  }

  // ----- order, duplication and junk make no difference

  lemma {:induction false} ClaimsContents(fs: seq<Found>)
    ensures forall r :: r in Claims(fs) <==> Claim(r) in fs
    ensures forall r :: r in Tombstones(fs) <==> Tombstone(r) in fs
    decreases |fs|
  {
    if fs != [] {
      var front, last := fs[..|fs| - 1], fs[|fs| - 1];
      ClaimsContents(front);
      assert fs == front + [last];
    }
  }

  ghost predicate SameFinds(fs: seq<Found>, gs: seq<Found>) { forall f :: f in fs <==> f in gs }

  /** Kind, owner, and the whole record where one is claimed. */
  datatype Verdict = Vacant | Taken(record: Record) | Burned(owner: Key)

  function VerdictOf(s: AliasState): Verdict {
    match s
    case Available => Vacant
    case Claimed(r) => Taken(r)
    case Revoked(r) => Burned(r.owner)
  }

  lemma SameEmpty(a: seq<Record>, b: seq<Record>)
    requires forall r :: r in a <==> r in b
    ensures a == [] <==> b == []
  {
    if a != [] { assert a[0] in b; }
    if b != [] { assert b[0] in a; }
  }

  lemma SameFounding(a: seq<Record>, b: seq<Record>)
    requires forall r :: r in a <==> r in b
    ensures Founding(a) == Founding(b)
  {
    hide Before, Founding;
    FoundingIsFirst(a);
    FoundingIsFirst(b);
    SameEmpty(a, b);
    if a != [] { OneFirst(Founding(a).value, Founding(b).value, a); }
  }

  lemma SameSenior(a: seq<Record>, b: seq<Record>)
    requires forall r :: r in a <==> r in b
    ensures MostSenior(a).Some? <==> MostSenior(b).Some?
    ensures MostSenior(a).Some? ==> MostSenior(a).value.owner == MostSenior(b).value.owner
  {
    hide Senior, MostSenior;
    MostSeniorIsFirst(a);
    MostSeniorIsFirst(b);
    SameEmpty(a, b);
    if a != [] { OneOwnerSenior(MostSenior(a).value, MostSenior(b).value, a); }
  }

  lemma SameVerdict(fs: seq<Found>, gs: seq<Found>)
    requires SameFinds(fs, gs)
    ensures VerdictOf(Judge(fs)) == VerdictOf(Judge(gs))
  {
    ClaimsContents(fs);
    ClaimsContents(gs);
    hide Claims, Tombstones, Founding, FirstOf, MostSenior;
    SameFounding(Claims(fs), Claims(gs));
    SameSenior(Tombstones(fs), Tombstones(gs));
    var claim := Founding(Claims(fs));
    if claim.Some? {
      FirstOfOwner(Tombstones(fs), claim.value.owner);
      FirstOfOwner(Tombstones(gs), claim.value.owner);
    }
  }

  lemma {:induction false} OpenedContents(c: Crypto, alias: Bytes, values: seq<Value>, now: U64)
    ensures forall f :: f in Opened(c, alias, values, now) <==>
                        exists v :: v in values && OpenOne(c, alias, AliasKey(c, alias), v, now) == Some(f)
    decreases |values|
  {
    hide OpenOne;
    if values != [] {
      var front, last := values[..|values| - 1], values[|values| - 1];
      OpenedContents(c, alias, front, now);
      assert values == front + [last];
      assert forall v :: v in values <==> v in front || v == last;
    }
  }

  predicate Junk(c: Crypto, alias: Bytes, v: Value, now: U64) { OpenOne(c, alias, AliasKey(c, alias), v, now).None? }

  /** Readers who see the same values, however ordered, however often, and with whatever unreadable, unsigned, foreign or
      out-of-time values among them, reach the same verdict on the same owner, and on the same record where one is
      claimed. */
  lemma VerdictIsOrderFree(c: Crypto, alias: Bytes, values: seq<Value>, others: seq<Value>, now: U64)
    requires forall v :: v in values ==> v in others || Junk(c, alias, v, now)
    requires forall v :: v in others ==> v in values || Junk(c, alias, v, now)
    ensures VerdictOf(StateOf(c, alias, values, now)) == VerdictOf(StateOf(c, alias, others, now))
  {
    hide OpenOne, Judge;
    OpenedContents(c, alias, values, now);
    OpenedContents(c, alias, others, now);
    SameVerdict(Opened(c, alias, values, now), Opened(c, alias, others, now));
  }

  // ----- which record is inside `Revoked`

  /** The tombstones that decide: the founder's, or the most senior ones when no claim is visible. */
  ghost predicate Deciding(fs: seq<Found>, t: Record) {
    && Tombstone(t) in fs
    && var claim := Founding(Claims(fs));
       if claim.Some? then t.owner == claim.value.owner else forall u :: Tombstone(u) in fs ==> !Senior(u, t)
  }

  lemma RevokedIsDeciding(fs: seq<Found>)
    requires Judge(fs).Revoked?
    ensures Deciding(fs, Judge(fs).record)
  {
    ClaimsContents(fs);
    hide Claims, Tombstones, Founding, FirstOf, MostSenior, Senior;
    var claim := Founding(Claims(fs));
    if claim.Some? { FirstOfOwner(Tombstones(fs), claim.value.owner); } else { MostSeniorIsFirst(Tombstones(fs)); }
  }

  lemma SameDeciding(fs: seq<Found>, gs: seq<Found>, t: Record)
    requires SameFinds(fs, gs) && Deciding(gs, t)
    ensures Deciding(fs, t)
  {
    ClaimsContents(fs);
    ClaimsContents(gs);
    hide Claims, Founding, Senior;
    SameFounding(Claims(fs), Claims(gs));
  }

  lemma {:induction false} BurnInFront(t: Record, fs: seq<Found>)
    ensures Claims([Tombstone(t)] + fs) == Claims(fs) && Tombstones([Tombstone(t)] + fs) == [t] + Tombstones(fs)
    decreases |fs|
  {
    var one := [Tombstone(t)];
    if fs == [] {
      Nil(one);
      assert one[..0] == [];
    } else {
      var all, front := one + fs, fs[..|fs| - 1];
      assert all[..|all| - 1] == one + front && all[|all| - 1] == fs[|fs| - 1];
      BurnInFront(t, front);
      Assoc([t], Tombstones(front), if fs[|fs| - 1].Tombstone? then [fs[|fs| - 1].record] else []);
      Nil([t] + Tombstones(front));
    }
  }

  lemma {:induction false} FirstInFront(t: Record, ts: seq<Record>)
    ensures FirstOf([t] + ts, t.owner) == Some(t)
    ensures (forall u :: u in ts ==> !Senior(u, t)) ==> MostSenior([t] + ts) == Some(t)
    decreases |ts|
  {
    var all := [t] + ts;
    if ts == [] {
      assert all[..0] == [];
    } else {
      var front := ts[..|ts| - 1];
      assert all[..|all| - 1] == [t] + front && all[|all| - 1] == ts[|ts| - 1];
      assert forall u :: u in front ==> u in ts;
      hide Senior;
      FirstInFront(t, front);
    }
  }

  /** Found first, a deciding tombstone is the one returned. */
  lemma DecidingInFront(fs: seq<Found>, t: Record)
    requires Deciding(fs, t)
    ensures SameFinds(fs, [Tombstone(t)] + fs) && Judge([Tombstone(t)] + fs) == Revoked(t)
  {
    BurnInFront(t, fs);
    FirstInFront(t, Tombstones(fs));
    ClaimsContents(fs);
    hide Claims, Tombstones, Founding, FirstOf, MostSenior, Senior;
  }

  /** The record inside `Revoked` is the same however the finds are ordered and repeated if and only if all deciding
      tombstones are equal. */
  lemma RevokedRecordExactly(fs: seq<Found>)
    requires Judge(fs).Revoked?
    ensures (forall gs :: SameFinds(fs, gs) ==> Judge(gs) == Judge(fs)) <==>
            (forall t, u :: Deciding(fs, t) && Deciding(fs, u) ==> t == u)
  {
    hide Judge, Deciding;
    RevokedIsDeciding(fs);
    if forall t, u :: Deciding(fs, t) && Deciding(fs, u) ==> t == u {
      forall gs | SameFinds(fs, gs) ensures Judge(gs) == Judge(fs) {
        SameKind(fs, gs);
        RevokedIsDeciding(gs);
        SameDeciding(fs, gs, Judge(gs).record);
      }
    }
    if forall gs :: SameFinds(fs, gs) ==> Judge(gs) == Judge(fs) {
      forall t, u | Deciding(fs, t) && Deciding(fs, u) ensures t == u {
        DecidingInFront(fs, t);
        DecidingInFront(fs, u);
      }
    }
  }

  lemma SameKind(fs: seq<Found>, gs: seq<Found>)
    requires SameFinds(fs, gs) && Judge(fs).Revoked?
    ensures Judge(gs).Revoked?
  {
    hide Judge;
    SameVerdict(fs, gs);
  }

  /** A visible tombstone keeps the alias burned if and only if whoever is first in line has one: a tombstone whose own claim
      is out of sight does not stop a stranger. */
  lemma BurnHoldsExactly(fs: seq<Found>)
    requires exists t :: Tombstone(t) in fs
    ensures Judge(fs).Revoked? <==>
            forall claim :: FirstInLine(claim, Claims(fs)) ==> exists t :: Tombstone(t) in fs && t.owner == claim.owner
  {
    ClaimsContents(fs);
    FoundingIsFirst(Claims(fs));
    MostSeniorIsFirst(Tombstones(fs));
    hide Claims, Tombstones, Founding, FirstOf, MostSenior, Before, Senior;
    var claim := Founding(Claims(fs));
    if claim.Some? {
      FirstOfOwner(Tombstones(fs), claim.value.owner);
      forall c | FirstInLine(c, Claims(fs)) ensures c == claim.value { OneFirst(c, claim.value, Claims(fs)); }
      assert (exists t :: t in Tombstones(fs) && t.owner == claim.value.owner) <==> exists t :: Tombstone(t) in fs && t.owner == claim.value.owner;
    } else {
      var t :| Tombstone(t) in fs;
      assert t in Tombstones(fs);
    }
  }

  // ----- seniority

  lemma OptionRoundTrip(o: Option<Bytes>, rest: Bytes)
    requires |PutOption(o)| < TWO64
    ensures ReadOption(PutOption(o) + rest) == Some((o, rest))
  {
    hide PutBlob, ReadBlob;
    if o.None? {
      Cons(0, rest);
    } else {
      Assoc([1], PutBlob(o.value), rest);
      Cons(1, PutBlob(o.value) + rest);
      BlobRoundTrip(o.value, rest);
    }
  }

  lemma BodyRoundTrip(b: Body)
    requires |PutBody(b)| < TWO64
    ensures ReadBody(PutBody(b)) == Some(b)
  {
    hide PutBlob, ReadBlob, PutOption, ReadOption;
    BlobRoundTrip(b.alias, PutOption(b.payload));
    Nil(PutOption(b.payload));
    OptionRoundTrip(b.payload, []);
  }

  lemma TimeRoundTrip(n: U64, rest: Bytes)
    ensures ReadTime(PutU64(n) + rest) == Some((n, rest))
  {
    U64RoundTrip(n, rest);
    hide ReadU64, PutU64;
  }

  lemma SignedRoundTrip(r: Signed)
    requires |r.sig| == 64 && |PutSigned(r)| < TWO64
    ensures ReadSigned(PutSigned(r)) == Some(r)
  {
    hide PutBlob, ReadBlob, ReadKey, ReadTime, PutU64;
    var body := PutBlob(r.body) + r.sig;
    var expires := PutU64(r.expires) + body;
    var created := PutU64(r.created) + expires;
    Cons(r.kind, r.owner + created);
    KeyRoundTrip(r.owner, created);
    TimeRoundTrip(r.created, expires);
    TimeRoundTrip(r.expires, body);
    BlobRoundTrip(r.body, r.sig);
    assert r.sig[..64] == r.sig;
  }

  /** A record built for an alias opens, all through its time, as what it was built to say. */
  lemma BuiltOpens(c: Crypto, signing: Key, alias: Bytes, now: U64, ttl: U64, created: U64, payload: Option<Bytes>,
                   tombstone: bool, nonce: Bytes, at: U64)
    requires CipherLaws(c) && SignatureLaws(c) && |nonce| == NONCE_LEN
    requires Build(c, signing, alias, now, ttl, created, payload, tombstone, nonce).Some?
    requires created <= at < (now + ttl) % TWO64
    ensures var v := Build(c, signing, alias, now, ttl, created, payload, tombstone, nonce).value;
            var owner, expires := c.verifying(signing), (now + ttl) % TWO64;
            OpenOne(c, alias, AliasKey(c, alias), v, at) ==
            Some(if tombstone then Tombstone(Record(owner, created, expires, None)) else Claim(Record(owner, created, expires, payload)))
  {
    hide ValidAlias, Seal, Open, PutSigned, ReadSigned, PutBody, ReadBody, RecordDigest, CipherLaws;
    var key := AliasKey(c, alias);
    var body := PutBody(Body(alias, payload));
    var kind := if tombstone then KIND_ALIAS_TOMBSTONE else KIND_ALIAS_CLAIM;
    var owner, expires := c.verifying(signing), (now + ttl) % TWO64;
    var digest := RecordDigest(c, kind, owner, created, expires, body, key);
    var signed := Signed(kind, owner, created, expires, body, c.sign(signing, digest));
    SealRoundTrip(c, AliasSecret(c, key), AliasLabel, key, PutSigned(signed), nonce);
    SignedSize(signed);
    SignedRoundTrip(signed);
    BodyRoundTrip(Body(alias, payload));
  }

  lemma SignedSize(r: Signed)
    ensures |r.body| <= |PutSigned(r)|
  {
    hide PutU64;
    assert |PutBlob(r.body)| >= |r.body|;
  }

  /** The verdict when one owner's claim is known and every other owner's claim came later. */
  lemma SeniorRules(fs: seq<Found>, claim: Record)
    requires Claim(claim) in fs
    requires forall r :: Claim(r) in fs && r.owner != claim.owner ==> Senior(claim, r)
    ensures var s := Judge(fs);
            && (s.Claimed? || s.Revoked?) && s.record.owner == claim.owner
            && (s.Revoked? <==> exists t :: Tombstone(t) in fs && t.owner == claim.owner)
  {
    ClaimsContents(fs);
    FoundingIsFirst(Claims(fs));
    hide Claims, Tombstones, Founding, FirstOf, MostSenior;
    var first := Founding(Claims(fs)).value;
    assert first.owner == claim.owner by { assert !Before(claim, first); }
    FirstOfOwner(Tombstones(fs), claim.owner);
    assert (exists t :: t in Tombstones(fs) && t.owner == claim.owner) <==> exists t :: Tombstone(t) in fs && t.owner == claim.owner;
  }

  /** Seniority survives time and rivals: at every instant covered by an owner's claim or renewal with founding time
      `created`, whatever later-founded claims, strangers' tombstones and junk lie beside it, the verdict names that
      owner; the alias is burned exactly when a valid tombstone of that owner is there, and claimed otherwise. */
  lemma SeniorityHolds(c: Crypto, signing: Key, alias: Bytes, now: U64, created: U64, payload: Option<Bytes>, nonce: Bytes,
                       values: seq<Value>, at: U64)
    requires CipherLaws(c) && SignatureLaws(c) && |nonce| == NONCE_LEN
    requires ClaimRenewal(c, signing, alias, now, created, payload, nonce).Some?
    requires ClaimRenewal(c, signing, alias, now, created, payload, nonce).value in values
    requires created <= at < (now + ALIAS_CLAIM_TTL_MS) % TWO64
    requires var fs, owner := Opened(c, alias, values, at), c.verifying(signing);
             forall r :: Claim(r) in fs && r.owner != owner ==> created < r.created || (created == r.created && Less(owner, r.owner))
    ensures var fs, owner := Opened(c, alias, values, at), c.verifying(signing);
            var s := StateOf(c, alias, values, at);
            && (s.Claimed? || s.Revoked?) && s.record.owner == owner
            && (s.Revoked? <==> exists t :: Tombstone(t) in fs && t.owner == owner)
  {
    var v := ClaimRenewal(c, signing, alias, now, created, payload, nonce).value;
    BuiltOpens(c, signing, alias, now, ALIAS_CLAIM_TTL_MS, created, payload, false, nonce, at);
    assert ValidAlias(alias);
    OpenedContents(c, alias, values, at);
    hide OpenOne, Build, Judge, Opened, ValidAlias, Less;
    var claim := Record(c.verifying(signing), created, (now + ALIAS_CLAIM_TTL_MS) % TWO64, payload);
    assert Claim(claim) in Opened(c, alias, values, at);
    SeniorRules(Opened(c, alias, values, at), claim);
  }

  // ----- every verdict rests on a signature

  /** 3 to 32 letters, digits and underscores. */
  predicate Wellformed(alias: Bytes) {
    && 3 <= |alias| <= 32
    && forall i :: 0 <= i < |alias| ==>
         (alias[i] >= 48 && alias[i] <= 57) || (alias[i] >= 65 && alias[i] <= 90) || (alias[i] >= 97 && alias[i] <= 122) || alias[i] == 95
  }

  /** The value, opened under the alias's secret, is a record of this kind that says `r` of this alias, in its time, signed by
      the owner it names. */
  predicate Testifies(c: Crypto, alias: Bytes, v: Value, now: U64, kind: byte, r: Record) {
    var key := AliasKey(c, alias);
    var plain := Open(c, AliasSecret(c, key), AliasLabel, key, v.bytes);
    && plain.Some? && ReadSigned(plain.value).Some?
    && var s := ReadSigned(plain.value).value;
    && s.kind == kind && s.owner == r.owner && s.created == r.created && s.expires == r.expires
    && s.created <= now < s.expires && ReadBody(s.body).Some?
    && ReadBody(s.body).value.alias == alias && r.payload == (if kind == 3 then ReadBody(s.body).value.payload else None)
    && c.verify(s.owner, RecordDigest(c, kind, s.owner, s.created, s.expires, s.body, key), s.sig)
  }

  lemma OpenOneExactly(c: Crypto, alias: Bytes, v: Value, now: U64, r: Record)
    ensures OpenOne(c, alias, AliasKey(c, alias), v, now) == Some(Claim(r)) <==> Testifies(c, alias, v, now, 3, r)
    ensures OpenOne(c, alias, AliasKey(c, alias), v, now) == Some(Tombstone(r)) <==> Testifies(c, alias, v, now, 4, r)
  {
    hide Open, ReadSigned, ReadBody, RecordDigest;
  }

  /** A claim, or a burn, is told only on the word of its owner: some value is a valid record of that kind that says exactly
      this, signed with that owner's key. And an alias is told free only when no value is any such record. */
  lemma VerdictIsSigned(c: Crypto, alias: Bytes, values: seq<Value>, now: U64)
    ensures match StateOf(c, alias, values, now)
            case Claimed(r) => Wellformed(alias) && exists v :: v in values && Testifies(c, alias, v, now, 3, r)
            case Revoked(r) => Wellformed(alias) && exists v :: v in values && Testifies(c, alias, v, now, 4, r)
            case Available => Wellformed(alias) ==> forall v, r :: v in values ==> !Testifies(c, alias, v, now, 3, r) && !Testifies(c, alias, v, now, 4, r)
  {
    assert ValidAlias(alias) <==> Wellformed(alias);
    var fs := Opened(c, alias, values, now);
    OpenedContents(c, alias, values, now);
    JudgeNames(fs);
    forall v, r ensures (OpenOne(c, alias, AliasKey(c, alias), v, now) == Some(Claim(r)) <==> Testifies(c, alias, v, now, 3, r))
                        && (OpenOne(c, alias, AliasKey(c, alias), v, now) == Some(Tombstone(r)) <==> Testifies(c, alias, v, now, 4, r))
    {
      OpenOneExactly(c, alias, v, now, r);
    }
    hide Opened, OpenOne, Judge, Testifies, ValidAlias, Wellformed;
  }

  /** What is told was found, and nothing found is told free. */
  lemma JudgeNames(fs: seq<Found>)
    ensures match Judge(fs)
            case Claimed(r) => Claim(r) in fs
            case Revoked(r) => Tombstone(r) in fs
            case Available => fs == []
  {
    ClaimsContents(fs);
    FoundingIsFirst(Claims(fs));
    MostSeniorIsFirst(Tombstones(fs));
    hide Claims, Tombstones, Founding, FirstOf, MostSenior, Before, Senior;
    var claim := Founding(Claims(fs));
    if claim.Some? { FirstOfOwner(Tombstones(fs), claim.value.owner); }
    if fs != [] { assert fs[0] in fs && (fs[0] == Claim(fs[0].record) || fs[0] == Tombstone(fs[0].record)); }
  }

  /** The claim told is the oldest: no valid claim was founded before it, among equals none is of a smaller key, and none of the
      same owner and time expires before it. */
  lemma OldestClaimWins(fs: seq<Found>, d: Record)
    requires Judge(fs).Claimed? && Claim(d) in fs
    ensures var r := Judge(fs).record;
            && r.created <= d.created && (r.created == d.created ==> r.owner == d.owner || Less(r.owner, d.owner))
            && (r.created == d.created && r.owner == d.owner ==> r.expires <= d.expires)
  {
    ClaimsContents(fs);
    FoundingIsFirst(Claims(fs));
    var r := Judge(fs).record;
    assert !Before(d, r);
    LessTrichotomy(r.owner, d.owner);
    hide Claims, Tombstones, Founding, FirstOf, MostSenior, Less;
  }

  /** What the digest of a record is made from. */
  function RecordText(c: Crypto, kind: byte, owner: Key, created: U64, expires: U64, body: Bytes, key: Key): Bytes {
    [kind] + owner + PutU64(created) + PutU64(expires) + c.digest(body) + key
  }

  predicate NoClash(c: Crypto, x: Bytes, y: Bytes) { c.digest(x) == c.digest(y) ==> x == y }

  /** The signature covers kind, owner, times, body and the key the record lies under: where digests do not collide, records
      that sign the same differ in none of them. */
  lemma DigestBinds(c: Crypto, kind: byte, owner: Key, created: U64, expires: U64, body: Bytes, key: Key,
                    kind': byte, owner': Key, created': U64, expires': U64, body': Bytes, key': Key)
    requires NoClash(c, body, body')
    requires NoClash(c, RecordText(c, kind, owner, created, expires, body, key), RecordText(c, kind', owner', created', expires', body', key'))
    requires RecordDigest(c, kind, owner, created, expires, body, key) == RecordDigest(c, kind', owner', created', expires', body', key')
    ensures kind == kind' && owner == owner' && created == created' && expires == expires' && body == body' && key == key'
  {
    var a1, b1 := [kind] + owner, [kind'] + owner';
    var a2, b2 := a1 + PutU64(created), b1 + PutU64(created');
    var a3, b3 := a2 + PutU64(expires), b2 + PutU64(expires');
    var a4, b4 := a3 + c.digest(body), b3 + c.digest(body');
    assert a4 + key == b4 + key';
    hide PutU64;
    PutSize(created); PutSize(created'); PutSize(expires); PutSize(expires');
    SplitEqual(a4, key, b4, key');
    SplitEqual(a3, c.digest(body), b3, c.digest(body'));
    SplitEqual(a2, PutU64(expires), b2, PutU64(expires'));
    SplitEqual(a1, PutU64(created), b1, PutU64(created'));
    SplitEqual([kind], owner, [kind'], owner');
    U64RoundTrip(created, []); U64RoundTrip(created', []);
    U64RoundTrip(expires, []); U64RoundTrip(expires', []);
  }

  lemma PutSize(n: U64)
    ensures |PutU64(n)| == 8
  {
  }

  lemma SplitEqual(a: Bytes, b: Bytes, c: Bytes, d: Bytes)
    requires a + b == c + d && |a| == |c|
    ensures a == c && b == d
  {
    Halves(a, b);
    Halves(c, d);
  }

  /** A record can be built exactly for a well-formed alias, founded no later than now, with a payload that fits. */
  lemma BuildExactly(c: Crypto, signing: Key, alias: Bytes, now: U64, ttl: U64, created: U64, payload: Option<Bytes>,
                     tombstone: bool, nonce: Bytes)
    requires CipherLaws(c) && SignatureLaws(c) && |nonce| == NONCE_LEN
    ensures Build(c, signing, alias, now, ttl, created, payload, tombstone, nonce).Some? <==>
            && Wellformed(alias) && created <= now
            && |alias| + (if payload.Some? then 138 + |payload.value| else 130) <= MAX_PLAINTEXT
  {
    assert ValidAlias(alias) <==> Wellformed(alias);
    hide ValidAlias, Wellformed, Seal, PutSigned, PutBody, RecordDigest, CipherLaws;
    var key := AliasKey(c, alias);
    var body := PutBody(Body(alias, payload));
    var kind := if tombstone then KIND_ALIAS_TOMBSTONE else KIND_ALIAS_CLAIM;
    var owner, expires := c.verifying(signing), (now + ttl) % TWO64;
    var digest := RecordDigest(c, kind, owner, created, expires, body, key);
    var signed := Signed(kind, owner, created, expires, body, c.sign(signing, digest));
    SealRoundTrip(c, AliasSecret(c, key), AliasLabel, key, PutSigned(signed), nonce);
    Sizes(signed, Body(alias, payload));
  }

  /** A claim or its renewal is good for 366 days from the time it is made, a tombstone for ten times as long. */
  lemma RecordsLast(c: Crypto, signing: Key, alias: Bytes, now: U64, created: U64, payload: Option<Bytes>, nonce: Bytes, at: U64)
    requires CipherLaws(c) && SignatureLaws(c) && |nonce| == NONCE_LEN && now + 316_224_000_000 < TWO64 && now <= at
    ensures var v, key := ClaimRenewal(c, signing, alias, now, created, payload, nonce), AliasKey(c, alias);
            v.Some? ==> (OpenOne(c, alias, key, v.value, at).Some? <==> at < now + 31_622_400_000)
    ensures var v, key := TombstoneRecord(c, signing, alias, now, nonce), AliasKey(c, alias);
            v.Some? ==> (OpenOne(c, alias, key, v.value, at).Some? <==> at < now + 316_224_000_000)
  {
    hide OpenOne, Build, CipherLaws, SignatureLaws;
    if ClaimRenewal(c, signing, alias, now, created, payload, nonce).Some? {
      BuiltOpensExactly(c, signing, alias, now, ALIAS_CLAIM_TTL_MS, created, payload, false, nonce, at);
    }
    if TombstoneRecord(c, signing, alias, now, nonce).Some? {
      BuiltOpensExactly(c, signing, alias, now, ALIAS_TOMBSTONE_TTL_MS, now, None, true, nonce, at);
    }
  }

  lemma BuiltOpensExactly(c: Crypto, signing: Key, alias: Bytes, now: U64, ttl: U64, created: U64, payload: Option<Bytes>,
                          tombstone: bool, nonce: Bytes, at: U64)
    requires CipherLaws(c) && SignatureLaws(c) && |nonce| == NONCE_LEN && ttl > 0 && now + ttl < TWO64 && now <= at
    requires Build(c, signing, alias, now, ttl, created, payload, tombstone, nonce).Some?
    ensures var v := Build(c, signing, alias, now, ttl, created, payload, tombstone, nonce).value;
            OpenOne(c, alias, AliasKey(c, alias), v, at).Some? <==> at < now + ttl
  {
    hide OpenOne, Build, CipherLaws, SignatureLaws;
    var v := Build(c, signing, alias, now, ttl, created, payload, tombstone, nonce).value;
    BuiltInTime(c, signing, alias, now, ttl, created, payload, tombstone, nonce);
    BuiltOpens(c, signing, alias, now, ttl, created, payload, tombstone, nonce, now);
    ExpiryDecides(c, alias, v, now, at);
  }

  lemma BuiltInTime(c: Crypto, signing: Key, alias: Bytes, now: U64, ttl: U64, created: U64, payload: Option<Bytes>, tombstone: bool, nonce: Bytes)
    requires Build(c, signing, alias, now, ttl, created, payload, tombstone, nonce).Some?
    ensures created <= now
  {
    hide Seal, PutSigned, PutBody, RecordDigest, ValidAlias;
  }

  /** A value that is valid now is valid later exactly until it expires. */
  lemma ExpiryDecides(c: Crypto, alias: Bytes, v: Value, now: U64, at: U64)
    requires now <= at && OpenOne(c, alias, AliasKey(c, alias), v, now).Some?
    ensures OpenOne(c, alias, AliasKey(c, alias), v, at).Some? <==> at < OpenOne(c, alias, AliasKey(c, alias), v, now).value.record.expires
  {
    hide Open, ReadSigned, ReadBody, RecordDigest;
  }

  lemma Sizes(r: Signed, b: Body)
    requires |r.sig| == 64
    ensures |PutSigned(r)| == 121 + |r.body|
    ensures |PutBody(b)| == |b.alias| + if b.payload.Some? then 17 + |b.payload.value| else 9
  {
    PutSize(r.created);
    PutSize(r.expires);
  }

  // ----- both on values the network can hold

  lemma {:induction false} OpenedOf(c: Crypto, alias: Bytes, values: seq<Value>, fs: seq<Found>, now: U64)
    requires |values| == |fs| && forall i :: 0 <= i < |fs| ==> OpenOne(c, alias, AliasKey(c, alias), values[i], now) == Some(fs[i])
    ensures Opened(c, alias, values, now) == fs
    decreases |fs|
  {
    hide OpenOne;
    if fs != [] {
      var n := |fs| - 1;
      OpenedOf(c, alias, values[..n], fs[..n], now);
      assert fs == fs[..n] + [fs[n]];
    }
  }

  lemma OneOnly(r: Record)
    ensures Founding([r]) == Some(r) && MostSenior([r]) == Some(r)
    ensures forall k: Key :: FirstOf([r], k) == if r.owner == k then Some(r) else None
  {
    var one := [r];
    assert one[..0] == [];
  }

  lemma BurnThenStranger(burned: Record, stranger: Record)
    requires burned.owner != stranger.owner
    ensures Judge([Tombstone(burned)]) == Revoked(burned)
    ensures Judge([Tombstone(burned), Claim(stranger)]) == Claimed(stranger)
  {
    OneOnly(burned);
    OneOnly(stranger);
    BurnInFront(burned, []);
    BurnInFront(burned, [Claim(stranger)]);
    var c := [Claim(stranger)];
    assert c[..0] == [];
    assert Claims(c) == [stranger] && Tombstones(c) == [];
    assert [Tombstone(burned)] + c == [Tombstone(burned), Claim(stranger)] && [Tombstone(burned)] + [] == [Tombstone(burned)];
    Nil([burned]);
    assert Claims([]) == [] && Tombstones([]) == [] && Founding([]) == None;
    hide Claims, Tombstones, Founding, FirstOf, MostSenior;
  }

  lemma TwoBurns(claim: Record, first: Record, second: Record)
    requires claim.owner == first.owner == second.owner
    ensures Judge([Tombstone(first), Tombstone(second), Claim(claim)]) == Revoked(first)
  {
    var c := [Claim(claim)];
    assert c[..0] == [];
    assert Claims(c) == [claim] && Tombstones(c) == [];
    BurnInFront(second, c);
    BurnInFront(first, [Tombstone(second)] + c);
    OneOnly(claim);
    FirstInFront(first, [second]);
    assert [Tombstone(first)] + ([Tombstone(second)] + c) == [Tombstone(first), Tombstone(second), Claim(claim)];
    Nil([second]);
    hide Claims, Tombstones, Founding, FirstOf, MostSenior;
  }

  lemma BurnOpens(c: Crypto, owner: Key, alias: Bytes, now: U64, nonce: Bytes, v: Value, at: U64)
    requires CipherLaws(c) && SignatureLaws(c) && |nonce| == NONCE_LEN && TombstoneRecord(c, owner, alias, now, nonce) == Some(v)
    requires now <= at < now + ALIAS_TOMBSTONE_TTL_MS < TWO64
    ensures OpenOne(c, alias, AliasKey(c, alias), v, at) ==
            Some(Tombstone(Record(c.verifying(owner), now, now + ALIAS_TOMBSTONE_TTL_MS, None)))
  {
    hide OpenOne, Build, ValidAlias, CipherLaws, SignatureLaws;
    BuiltOpens(c, owner, alias, now, ALIAS_TOMBSTONE_TTL_MS, now, None, true, nonce, at);
  }

  lemma OnlyValid(c: Crypto, owner: Key, alias: Bytes, now: U64, nonce: Bytes)
    requires TombstoneRecord(c, owner, alias, now, nonce).Some?
    ensures ValidAlias(alias)
  {
    hide ValidAlias;
  }

  lemma ClaimOpens(c: Crypto, owner: Key, alias: Bytes, now: U64, payload: Option<Bytes>, nonce: Bytes, v: Value, at: U64)
    requires CipherLaws(c) && SignatureLaws(c) && |nonce| == NONCE_LEN && ClaimRecord(c, owner, alias, now, payload, nonce) == Some(v)
    requires now <= at < now + ALIAS_CLAIM_TTL_MS < TWO64
    ensures OpenOne(c, alias, AliasKey(c, alias), v, at) ==
            Some(Claim(Record(c.verifying(owner), now, now + ALIAS_CLAIM_TTL_MS, payload)))
  {
    hide OpenOne, Build, ValidAlias, CipherLaws, SignatureLaws;
    BuiltOpens(c, owner, alias, now, ALIAS_CLAIM_TTL_MS, now, payload, false, nonce, at);
  }

  /** The owner's tombstone alone burns the alias; beside a stranger's claim, the owner's own claim being gone, the stranger
      has it. */
  lemma BurnWithoutClaimYields(c: Crypto, owner: Key, stranger: Key, alias: Bytes, now: U64, payload: Option<Bytes>, nonce: Bytes,
                               burn: Value, claim: Value)
    requires CipherLaws(c) && SignatureLaws(c) && |nonce| == NONCE_LEN && c.verifying(owner) != c.verifying(stranger)
    requires now + ALIAS_TOMBSTONE_TTL_MS < TWO64
    requires TombstoneRecord(c, owner, alias, now, nonce) == Some(burn) && ClaimRecord(c, stranger, alias, now, payload, nonce) == Some(claim)
    ensures VerdictOf(StateOf(c, alias, [burn], now)) == Burned(c.verifying(owner))
    ensures var s := StateOf(c, alias, [burn, claim], now); s.Claimed? && s.record.owner == c.verifying(stranger)
  {
    hide OpenOne, TombstoneRecord, ClaimRecord, Judge, Opened, ValidAlias, CipherLaws, SignatureLaws;
    OnlyValid(c, owner, alias, now, nonce);
    BurnOpens(c, owner, alias, now, nonce, burn, now);
    ClaimOpens(c, stranger, alias, now, payload, nonce, claim, now);
    var b := Record(c.verifying(owner), now, now + ALIAS_TOMBSTONE_TTL_MS, None);
    var r := Record(c.verifying(stranger), now, now + ALIAS_CLAIM_TTL_MS, payload);
    OpenedOf(c, alias, [burn], [Tombstone(b)], now);
    OpenedOf(c, alias, [burn, claim], [Tombstone(b), Claim(r)], now);
    BurnThenStranger(b, r);
  }

  /** An owner's claim and two tombstones made at different times: in one order the verdict carries the first, in the other
      the second. */
  lemma RevokedRecordDepends(c: Crypto, owner: Key, alias: Bytes, first: U64, second: U64, payload: Option<Bytes>, nonce: Bytes,
                             claim: Value, a: Value, b: Value)
    requires CipherLaws(c) && SignatureLaws(c) && |nonce| == NONCE_LEN && first < second < first + ALIAS_CLAIM_TTL_MS
    requires second + ALIAS_TOMBSTONE_TTL_MS < TWO64 && ClaimRecord(c, owner, alias, first, payload, nonce) == Some(claim)
    requires TombstoneRecord(c, owner, alias, first, nonce) == Some(a) && TombstoneRecord(c, owner, alias, second, nonce) == Some(b)
    ensures var one, two := StateOf(c, alias, [a, b, claim], second), StateOf(c, alias, [b, a, claim], second);
            one.Revoked? && one.record.created == first && two.Revoked? && two.record.created == second
  {
    hide OpenOne, TombstoneRecord, ClaimRecord, Judge, Opened, ValidAlias, CipherLaws, SignatureLaws;
    ClaimOpens(c, owner, alias, first, payload, nonce, claim, second);
    OnlyValid(c, owner, alias, first, nonce);
    BurnOpens(c, owner, alias, first, nonce, a, second);
    BurnOpens(c, owner, alias, second, nonce, b, second);
    var k := c.verifying(owner);
    var r := Record(k, first, first + ALIAS_CLAIM_TTL_MS, payload);
    var s, t := Record(k, first, first + ALIAS_TOMBSTONE_TTL_MS, None), Record(k, second, second + ALIAS_TOMBSTONE_TTL_MS, None);
    OpenedOf(c, alias, [a, b, claim], [Tombstone(s), Tombstone(t), Claim(r)], second);
    OpenedOf(c, alias, [b, a, claim], [Tombstone(t), Tombstone(s), Claim(r)], second);
    TwoBurns(r, s, t);
    TwoBurns(r, t, s);
  }

  // ----- the loops

  /** `open_alias_records`: the values in turn, into two lists. */
  method OpenRecords(c: Crypto, alias: Bytes, values: seq<Value>, now: U64) returns (claims: seq<Record>, burns: seq<Record>)
    ensures claims == Claims(Opened(c, alias, values, now)) && burns == Tombstones(Opened(c, alias, values, now))
  {
    hide OpenOne;
    claims, burns := [], [];
    var key := AliasKey(c, alias);
    var i := 0;
    while i < |values|
      invariant i <= |values|
      invariant var fs := Opened(c, alias, values[..i], now); claims == Claims(fs) && burns == Tombstones(fs)
    {
      var upTo := values[..i + 1];
      assert upTo[..i] == values[..i] && upTo[i] == values[i];
      var f := OpenOne(c, alias, key, values[i], now);
      ghost var fs := Opened(c, alias, values[..i], now);
      if f.Some? {
        assert Opened(c, alias, upTo, now) == fs + [f.value] && (fs + [f.value])[..|fs|] == fs;
        if f.value.Claim? { claims := claims + [f.value.record]; } else { burns := burns + [f.value.record]; }
      } else {
        assert Opened(c, alias, upTo, now) == fs;
      }
      i := i + 1;
    }
    assert values[..i] == values;
  }

  /** The oldest claim of each owner, by the tie-break. */
  ghost predicate Foundings(m: map<Key, Record>, claims: seq<Record>) {
    && (forall i :: 0 <= i < |claims| ==> claims[i].owner in m && !Older(claims[i], m[claims[i].owner]))
    && (forall k :: k in m ==> m[k] in claims && m[k].owner == k)
  }

  /** `founding_of_owner`: one entry per owner, replaced whenever an older claim of theirs turns up. */
  method FoundingOfOwner(claims: seq<Record>) returns (m: map<Key, Record>)
    ensures Foundings(m, claims)
  {
    hide Older;
    m := map[];
    var i := 0;
    while i < |claims|
      invariant i <= |claims| && Foundings(m, claims[..i])
    {
      var c := claims[i];
      assert claims[..i + 1] == claims[..i] + [c];
      OlderTotal(c, c);
      if c.owner !in m {
        m := m[c.owner := c];
      } else if Older(c, m[c.owner]) {
        ghost var e := m[c.owner];
        forall d: Record | d.owner == c.owner && !Older(d, e) ensures !Older(d, c) {
          if Older(d, c) { OlderTransitive(d, c, e); }
        }
        m := m[c.owner := c];
      }
      i := i + 1;
    }
    assert claims[..i] == claims;
  }

  lemma BestOfFoundings(m: map<Key, Record>, claims: seq<Record>, r: Record)
    requires Foundings(m, claims) && r.owner in m && r == m[r.owner]
    requires forall k :: k in m ==> !Senior(m[k], r)
    ensures FirstInLine(r, claims)
  {
    forall d | d in claims ensures !Before(d, r) {
      var e := m[d.owner];
      OlderTotal(d, e);
      hide Less;
    }
  }

  /** The most senior entry, in whatever order the map is walked. */
  method PickFounding(m: map<Key, Record>, claims: seq<Record>) returns (best: Option<Record>)
    requires Foundings(m, claims)
    ensures best == Founding(claims)
  {
    hide Senior, Older;
    best := None;
    var left := m.Keys;
    while left != {}
      invariant left <= m.Keys && (best.None? ==> left == m.Keys)
      invariant best.Some? ==> best.value.owner in m && m[best.value.owner] == best.value
      invariant best.Some? ==> forall k :: k in m && k !in left ==> !Senior(m[k], best.value)
    {
      var k :| k in left;
      var e := m[k];
      LessTrichotomy(e.owner, e.owner);
      NotSeniorToSelf(e);
      if best.None? {
        best := Some(e);
      } else if Senior(e, best.value) {
        forall d: Record | !Senior(d, best.value) ensures !Senior(d, e) {
          if Senior(d, e) { SeniorTransitive(d, e, best.value); }
        }
        best := Some(e);
      }
      left := left - {k};
    }
    FoundingIsFirst(claims);
    if best.Some? {
      BestOfFoundings(m, claims, best.value);
      OneFirst(best.value, Founding(claims).value, claims);
    } else {
      NoFoundings(m, claims);
    }
  }

  lemma NotSeniorToSelf(r: Record)
    ensures !Senior(r, r)
  {
    LessTrichotomy(r.owner, r.owner);
  }

  lemma NoFoundings(m: map<Key, Record>, claims: seq<Record>)
    requires Foundings(m, claims)
    ensures m.Keys == {} ==> claims == []
  {
    if claims != [] { assert claims[0].owner in m.Keys; }
  }

  /** `alias_state`, step by step. */
  method Resolve(c: Crypto, alias: Bytes, values: seq<Value>, now: U64) returns (s: AliasState)
    ensures s == StateOf(c, alias, values, now)
  {
    if !ValidAlias(alias) { return Available; }
    var claims, burns := OpenRecords(c, alias, values, now);
    var m := FoundingOfOwner(claims);
    var claim := PickFounding(m, claims);
    if claim.Some? {
      var t := FirstOf(burns, claim.value.owner);
      return if t.Some? then Revoked(t.value) else Claimed(claim.value);
    }
    var t := MostSenior(burns);
    return if t.Some? then Revoked(t.value) else Available;
  }
}
