/** `EngineState`: the private state of a browser profile, how it is written into a payload and how a payload is loaded,
    with every count, duplicate and bound check of the loader. */
module Profile {
  import opened Prelude
  import opened Crossing
  import opened EnginePeer
  import opened Payload
  import Vault

  const MAX_OPK := 256
  const MAX_SESSIONS := 1024

  /** The five maps keyed by the peer's signing key. */
  datatype Peers = Peers(
    sessions: map<Key, Ratchet>, dhs: map<Key, Key>, lost: map<Key, Ratchet>, own: map<Key, OwnInit>,
    alts: map<Key, seq<Ratchet>>)

  datatype State = State(
    profile: Bytes, vault: Vault.Vault, signSeed: Key, dhSecret: Key, client: Bytes, prekeys: Prekeys, peers: Peers)

  /** How a ratchet is stored, how the router normalises its own identity, and whether protected memory takes the identity's
      secrets and a prekey's. */
  datatype Codec = Codec(
    put: Ratchet -> Bytes, read: Bytes -> Option<Ratchet>, client: Bytes -> Option<Bytes>,
    identity: (Key, Key) -> bool, prekey: Key -> bool)

  /** Ratchets read back, and there is protected memory. */
  ghost predicate CodecLaws(c: Codec) {
    (forall r :: c.read(c.put(r)) == Some(r)) && (forall a, b :: c.identity(a, b)) && (forall k :: c.prekey(k))
  }

  datatype LoadError =
    | Malformed | BadVersion | WrongProfile | TooManySessions | TooManyOtks | TooManyLost | TooManyOwn
    | DuplicateSession | DuplicateLost | DuplicateOwn | DuplicateOtk | TooManyAlternates | BadIdentity | BadClient
    | BadPrekey | BadOtk | BadRatchet

  // ----- writing

  function ZeroKey(): Key { seq(32, _ => 0) }

  function DhOf(dhs: map<Key, Key>, k: Key): Key { if k in dhs then dhs[k] else ZeroKey() }

  /** The rows of a ratchet map, in the order its iterator happens to give. */
  function Rows(c: Codec, order: seq<Key>, m: map<Key, Ratchet>, dhs: map<Key, Key>): seq<Row>
    requires forall i :: 0 <= i < |order| ==> order[i] in m
  {
    seq(|order|, i requires 0 <= i < |order| => Row(order[i], DhOf(dhs, order[i]), c.put(m[order[i]])))
  }

  function OwnRows(order: seq<Key>, m: map<Key, OwnInit>): seq<OwnRow>
    requires forall i :: 0 <= i < |order| ==> order[i] in m
  {
    seq(|order|, i requires 0 <= i < |order| => OwnRow(order[i], m[order[i]].dh, m[order[i]].ts))
  }

  function AltRowsOf(c: Codec, k: Key, list: seq<Ratchet>): seq<AltRow> {
    seq(|list|, i requires 0 <= i < |list| => AltRow(k, c.put(list[i])))
  }

  function AltRows(c: Codec, order: seq<Key>, m: map<Key, seq<Ratchet>>): seq<AltRow>
    requires forall i :: 0 <= i < |order| ==> order[i] in m
  {
    if order == [] then []
    else
      var k := order[|order| - 1];
      AltRows(c, order[..|order| - 1], m) + AltRowsOf(c, k, m[k])
  }

  /** `order` is one of the orders in which a hash map with these keys may be walked. */
  predicate Walks<V>(order: seq<Key>, m: map<Key, V>) {
    Distinct(order) && (forall i :: 0 <= i < |order| ==> order[i] in m) && (forall k :: k in m ==> k in order)
  }

  /** One walk for each of the four maps that are written. */
  datatype Orders = Orders(sessions: seq<Key>, lost: seq<Key>, own: seq<Key>, alts: seq<Key>)

  predicate WalksAll(o: Orders, p: Peers) {
    Walks(o.sessions, p.sessions) && Walks(o.lost, p.lost) && Walks(o.own, p.own) && Walks(o.alts, p.alts)
  }

  function TablesOf(c: Codec, p: Peers, o: Orders): Tables
    requires WalksAll(o, p)
  {
    Tables(Rows(c, o.sessions, p.sessions, p.dhs), Rows(c, o.lost, p.lost, p.dhs), OwnRows(o.own, p.own), AltRows(c, o.alts, p.alts))
  }

  function PayloadOf(c: Codec, st: State, o: Orders, metadata: Bytes): Payload
    requires WalksAll(o, st.peers)
  {
    Payload(Identity(1, st.profile, st.signSeed, st.dhSecret, st.client), st.prekeys, TablesOf(c, st.peers, o), metadata)
  }

  /** `serialize_vault_payload`. */
  function Serialise(c: Codec, st: State, o: Orders, metadata: Bytes): Bytes
    requires WalksAll(o, st.peers)
  {
    Put(PayloadOf(c, st, o, metadata))
  }

  // ----- loading

  function RowPeers(rows: seq<Row>): seq<Key> { seq(|rows|, i requires 0 <= i < |rows| => rows[i].peer) }

  function OwnPeers(rows: seq<OwnRow>): seq<Key> { seq(|rows|, i requires 0 <= i < |rows| => rows[i].peer) }

  function Ids(otks: seq<Otk>): seq<I64> { seq(|otks|, i requires 0 <= i < |otks| => otks[i].id) }

  function Count(k: Key, rows: seq<AltRow>): nat {
    if rows == [] then 0 else Count(k, rows[..|rows| - 1]) + if rows[|rows| - 1].peer == k then 1 else 0
  }

  predicate AlternatesFit(rows: seq<AltRow>) { forall i :: 0 <= i < |rows| ==> Count(rows[i].peer, rows) <= MAX_ALTERNATES }

  /** Row after row into the map; one ratchet that does not read fails the load. */
  function LoadRatchets(c: Codec, rows: seq<Row>): Option<map<Key, Ratchet>> {
    if rows == [] then Some(map[])
    else
      var m, last := LoadRatchets(c, rows[..|rows| - 1]), rows[|rows| - 1];
      var r := c.read(last.bytes);
      if m.None? || r.None? then None else Some(m.value[last.peer := r.value])
  }

  function LoadDhs(dhs: map<Key, Key>, rows: seq<Row>): map<Key, Key> {
    if rows == [] then dhs
    else
      var last := rows[|rows| - 1];
      LoadDhs(dhs, rows[..|rows| - 1])[last.peer := last.dh]
  }

  function LoadOwn(rows: seq<OwnRow>): map<Key, OwnInit> {
    if rows == [] then map[]
    else
      var last := rows[|rows| - 1];
      LoadOwn(rows[..|rows| - 1])[last.peer := OwnInit(last.dh, last.ts)]
  }

  function ListOf<V>(m: map<Key, seq<V>>, k: Key): seq<V> { if k in m then m[k] else [] }

  function LoadAlts(c: Codec, rows: seq<AltRow>): Option<map<Key, seq<Ratchet>>> {
    if rows == [] then Some(map[])
    else
      var m, last := LoadAlts(c, rows[..|rows| - 1]), rows[|rows| - 1];
      var r := c.read(last.bytes);
      if m.None? || r.None? then None
      else
        var list := ListOf(m.value, last.peer);
        Some(m.value[last.peer := if |list| < MAX_ALTERNATES then list + [r.value] else list])
  }

  /** The checks made before anything is built, in the loader's order. */
  function Refusal(p: Payload, profile: Bytes): Option<LoadError> {
    var t := p.tables;
    if p.identity.version != 1 then Some(BadVersion)
    else if p.identity.profile != profile then Some(WrongProfile)
    else if |t.sessions| > MAX_SESSIONS then Some(TooManySessions)
    else if |p.prekeys.otks| > MAX_OPK then Some(TooManyOtks)
    else if |t.lost| > MAX_SESSIONS then Some(TooManyLost)
    else if |t.own| > MAX_SESSIONS then Some(TooManyOwn)
    else if !Distinct(RowPeers(t.sessions)) then Some(DuplicateSession)
    else if !Distinct(RowPeers(t.lost)) then Some(DuplicateLost)
    else if !Distinct(OwnPeers(t.own)) then Some(DuplicateOwn)
    else if !Distinct(Ids(p.prekeys.otks)) then Some(DuplicateOtk)
    else if !AlternatesFit(t.alts) then Some(TooManyAlternates)
    else None
  }

  function LoadPeers(c: Codec, t: Tables): Result<Peers, LoadError> {
    var sessions, lost, alts := LoadRatchets(c, t.sessions), LoadRatchets(c, t.lost), LoadAlts(c, t.alts);
    if sessions.None? || lost.None? || alts.None? then Err(BadRatchet)
    else Ok(Peers(sessions.value, LoadDhs(LoadDhs(map[], t.sessions), t.lost), lost.value, LoadOwn(t.own), alts.value))
  }

  /** Restoring the identity, the router's identity, the signed prekey and the one-time prekeys, in this order. */
  function LoadSecrets(c: Codec, i: Identity, p: Prekeys): Result<Bytes, LoadError> {
    if !c.identity(i.signSeed, i.dhSecret) then Err(BadIdentity)
    else
      var client := c.client(i.client);
      if client.None? then Err(BadClient)
      else if !c.prekey(p.spkSecret) then Err(BadPrekey)
      else if exists k :: 0 <= k < |p.otks| && !c.prekey(p.otks[k].secret) then Err(BadOtk)
      else Ok(client.value)
  }

  /** `deserialize_vault_payload`. */
  function Load(c: Codec, profile: Bytes, vault: Vault.Vault, bytes: Bytes): Result<(State, Bytes), LoadError> {
    var read := ReadWhole(bytes);
    if read.None? then Err(Malformed)
    else
      var p := read.value;
      var refusal := Refusal(p, profile);
      if refusal.Some? then Err(refusal.value)
      else
        var client := LoadSecrets(c, p.identity, p.prekeys);
        if client.Err? then Err(client.error)
        else
          var peers := LoadPeers(c, p.tables);
          if peers.Err? then Err(peers.error)
          else
            Ok((State(p.identity.profile, vault, p.identity.signSeed, p.identity.dhSecret, client.value, p.prekeys, peers.value),
                p.metadata))
  }

  // ----- what the engine keeps true of the maps

  predicate ListOk(list: seq<Ratchet>) { 1 <= |list| <= MAX_ALTERNATES }

  /** Sessions and pinned keys go together, everything else hangs on a session, and the loader's bounds hold. */
  predicate Coherent(p: Peers) {
    && p.dhs.Keys == p.sessions.Keys && p.lost.Keys <= p.sessions.Keys && p.own.Keys <= p.sessions.Keys && p.alts.Keys <= p.sessions.Keys
    && (forall k :: k in p.alts ==> ListOk(p.alts[k]))
    && |p.sessions| <= MAX_SESSIONS
  }

  // ----- a walk over the rows gives the map back

  function Restrict<V>(m: map<Key, V>, order: seq<Key>): map<Key, V> { map k | k in m && k in order :: m[k] }

  lemma RestrictMore<V>(m: map<Key, V>, order: seq<Key>)
    requires order != [] && order[|order| - 1] in m
    ensures Restrict(m, order) == Restrict(m, order[..|order| - 1])[order[|order| - 1] := m[order[|order| - 1]]]
  {
    var k, front := order[|order| - 1], order[..|order| - 1];
    assert order == front + [k];
    assert forall x :: x in order <==> x in front || x == k;
  }

  lemma RestrictAll<V>(m: map<Key, V>, order: seq<Key>)
    requires Walks(order, m)
    ensures Restrict(m, order) == m
  {
  }

  lemma {:induction false} RatchetsRoundTrip(c: Codec, order: seq<Key>, m: map<Key, Ratchet>, dhs: map<Key, Key>)
    requires CodecLaws(c) && forall i :: 0 <= i < |order| ==> order[i] in m
    ensures LoadRatchets(c, Rows(c, order, m, dhs)) == Some(Restrict(m, order))
    decreases |order|
  {
    if order != [] {
      var n := |order| - 1;
      RatchetsRoundTrip(c, order[..n], m, dhs);
      assert Rows(c, order, m, dhs)[..n] == Rows(c, order[..n], m, dhs);
      RestrictMore(m, order);
    }
  }

  lemma {:induction false} DhsRoundTrip(c: Codec, order: seq<Key>, m: map<Key, Ratchet>, dhs: map<Key, Key>)
    requires forall i :: 0 <= i < |order| ==> order[i] in m && order[i] in dhs
    ensures LoadDhs(map[], Rows(c, order, m, dhs)) == Restrict(dhs, order)
    decreases |order|
  {
    if order != [] {
      var n := |order| - 1;
      DhsRoundTrip(c, order[..n], m, dhs);
      assert Rows(c, order, m, dhs)[..n] == Rows(c, order[..n], m, dhs);
      RestrictMore(dhs, order);
    }
  }

  /** The rows of the lost inits repeat keys that are already there. */
  lemma {:induction false} DhsRepeat(c: Codec, order: seq<Key>, m: map<Key, Ratchet>, dhs: map<Key, Key>)
    requires forall i :: 0 <= i < |order| ==> order[i] in m && order[i] in dhs
    ensures LoadDhs(dhs, Rows(c, order, m, dhs)) == dhs
    decreases |order|
  {
    if order != [] {
      var n := |order| - 1;
      DhsRepeat(c, order[..n], m, dhs);
      assert Rows(c, order, m, dhs)[..n] == Rows(c, order[..n], m, dhs);
    }
  }

  lemma {:induction false} OwnRoundTrip(order: seq<Key>, m: map<Key, OwnInit>)
    requires forall i :: 0 <= i < |order| ==> order[i] in m
    ensures LoadOwn(OwnRows(order, m)) == Restrict(m, order)
    decreases |order|
  {
    if order != [] {
      var n := |order| - 1;
      OwnRoundTrip(order[..n], m);
      assert OwnRows(order, m)[..n] == OwnRows(order[..n], m);
      RestrictMore(m, order);
    }
  }

  lemma NoRows(c: Codec, k: Key)
    ensures AltRowsOf(c, k, []) == []
  {
  }

  lemma OneMoreRow(c: Codec, rows: seq<AltRow>, k: Key, list: seq<Ratchet>)
    requires CodecLaws(c) && ListOk(list)
    requires LoadAlts(c, rows + AltRowsOf(c, k, list[..|list| - 1])).Some?
    ensures var before := LoadAlts(c, rows + AltRowsOf(c, k, list[..|list| - 1])).value;
            var was := ListOf(before, k);
            LoadAlts(c, rows + AltRowsOf(c, k, list)) ==
            Some(before[k := if |was| < MAX_ALTERNATES then was + [list[|list| - 1]] else was])
  {
    var n := |list| - 1;
    var all := rows + AltRowsOf(c, k, list);
    assert all[..|all| - 1] == rows + AltRowsOf(c, k, list[..n]);
    assert all[|all| - 1] == AltRow(k, c.put(list[n]));
    hide AltRowsOf;
  }

  lemma {:induction false} OneListRoundTrip(c: Codec, rows: seq<AltRow>, k: Key, list: seq<Ratchet>)
    requires CodecLaws(c) && ListOk(list) && LoadAlts(c, rows).Some? && k !in LoadAlts(c, rows).value
    ensures LoadAlts(c, rows + AltRowsOf(c, k, list)) == Some(LoadAlts(c, rows).value[k := list])
    decreases |list|
  {
    var n := |list| - 1;
    var front := list[..n];
    assert list == front + [list[n]];
    hide AltRowsOf, LoadAlts;
    var m := LoadAlts(c, rows).value;
    if n > 0 {
      OneListRoundTrip(c, rows, k, front);
      var once: map<Key, seq<Ratchet>> := m[k := front];
      assert once[k := list] == m[k := list];
    } else {
      assert AltRowsOf(c, k, front) == [] by { NoRows(c, k); }
      Nil(rows);
    }
    OneMoreRow(c, rows, k, list);
  }

  lemma {:induction false} AltsRoundTrip(c: Codec, order: seq<Key>, m: map<Key, seq<Ratchet>>)
    requires CodecLaws(c) && Distinct(order) && forall i :: 0 <= i < |order| ==> order[i] in m && ListOk(m[order[i]])
    ensures LoadAlts(c, AltRows(c, order, m)) == Some(Restrict(m, order))
    decreases |order|
  {
    if order != [] {
      var n := |order| - 1;
      AltsRoundTrip(c, order[..n], m);
      assert order[n] !in order[..n];
      OneListRoundTrip(c, AltRows(c, order[..n], m), order[n], m[order[n]]);
      RestrictMore(m, order);
    }
  }

  // ----- the checks let it through

  lemma {:induction false} CountAppend(k: Key, a: seq<AltRow>, b: seq<AltRow>)
    ensures Count(k, a + b) == Count(k, a) + Count(k, b)
    decreases |b|
  {
    if b == [] {
      Nil(a);
    } else {
      assert (a + b)[..|a + b| - 1] == a + b[..|b| - 1];
      CountAppend(k, a, b[..|b| - 1]);
    }
  }

  lemma {:induction false} CountOfOne(c: Codec, k: Key, j: Key, list: seq<Ratchet>)
    ensures Count(j, AltRowsOf(c, k, list)) == if j == k then |list| else 0
    decreases |list|
  {
    if list != [] {
      var n := |list| - 1;
      assert AltRowsOf(c, k, list)[..n] == AltRowsOf(c, k, list[..n]);
      CountOfOne(c, k, j, list[..n]);
    }
  }

  lemma {:induction false} CountInWalk(c: Codec, j: Key, order: seq<Key>, m: map<Key, seq<Ratchet>>)
    requires Distinct(order) && forall i :: 0 <= i < |order| ==> order[i] in m && ListOk(m[order[i]])
    ensures Count(j, AltRows(c, order, m)) <= MAX_ALTERNATES && (j !in order ==> Count(j, AltRows(c, order, m)) == 0)
    decreases |order|
  {
    if order != [] {
      var n := |order| - 1;
      var k := order[n];
      CountInWalk(c, j, order[..n], m);
      CountAppend(j, AltRows(c, order[..n], m), AltRowsOf(c, k, m[k]));
      CountOfOne(c, k, j, m[k]);
      assert j == k ==> j !in order[..n];
    }
  }

  lemma WalkIsSmall<V>(order: seq<Key>, m: map<Key, V>)
    requires Walks(order, m)
    ensures |order| == |m|
  {
    var keys := set k | k in order;
    DistinctCount(order);
    assert keys == m.Keys;
  }

  lemma {:induction false} DistinctCount(order: seq<Key>)
    requires Distinct(order)
    ensures |set k | k in order| == |order|
    decreases |order|
  {
    if order == [] {
      assert (set k | k in order) == {};
    } else {
      var n := |order| - 1;
      DistinctCount(order[..n]);
      assert order == order[..n] + [order[n]];
      assert (set k | k in order) == (set k | k in order[..n]) + {order[n]};
    }
  }

  lemma SubmapIsSmall<V, W>(a: map<Key, V>, b: map<Key, W>)
    requires a.Keys <= b.Keys
    ensures |a| <= |b|
  {
    var more := b.Keys - a.Keys;
    assert b.Keys == a.Keys + more;
  }

  lemma PeersOfRows(c: Codec, p: Peers, o: Orders)
    requires WalksAll(o, p)
    ensures var t := TablesOf(c, p, o);
            RowPeers(t.sessions) == o.sessions && RowPeers(t.lost) == o.lost && OwnPeers(t.own) == o.own
  {
  }

  lemma AlternatesPass(c: Codec, p: Peers, o: Orders)
    requires Coherent(p) && WalksAll(o, p)
    ensures AlternatesFit(AltRows(c, o.alts, p.alts))
  {
    var rows := AltRows(c, o.alts, p.alts);
    hide AltRows;
    forall i | 0 <= i < |rows| ensures Count(rows[i].peer, rows) <= MAX_ALTERNATES {
      CountInWalk(c, rows[i].peer, o.alts, p.alts);
    }
  }

  lemma SizesPass(p: Peers, o: Orders)
    requires Coherent(p) && WalksAll(o, p)
    ensures |o.sessions| <= MAX_SESSIONS && |o.lost| <= MAX_SESSIONS && |o.own| <= MAX_SESSIONS
  {
    WalkIsSmall(o.sessions, p.sessions);
    WalkIsSmall(o.lost, p.lost);
    WalkIsSmall(o.own, p.own);
    SubmapIsSmall(p.lost, p.sessions);
    SubmapIsSmall(p.own, p.sessions);
  }

  lemma ChecksPass(c: Codec, st: State, o: Orders, metadata: Bytes)
    requires Coherent(st.peers) && WalksAll(o, st.peers) && |st.prekeys.otks| <= MAX_OPK && Distinct(Ids(st.prekeys.otks))
    ensures Refusal(PayloadOf(c, st, o, metadata), st.profile) == None
  {
    SizesPass(st.peers, o);
    PeersOfRows(c, st.peers, o);
    AlternatesPass(c, st.peers, o);
    hide Coherent, AlternatesFit, AltRows, Distinct, RowPeers, OwnPeers, Ids;
  }

  lemma PinnedRoundTrip(c: Codec, p: Peers, o: Orders)
    requires Coherent(p) && WalksAll(o, p)
    ensures LoadDhs(LoadDhs(map[], Rows(c, o.sessions, p.sessions, p.dhs)), Rows(c, o.lost, p.lost, p.dhs)) == p.dhs
  {
    hide LoadDhs, Rows, Restrict;
    assert Walks(o.sessions, p.dhs);
    assert forall i :: 0 <= i < |o.lost| ==> o.lost[i] in p.lost && o.lost[i] in p.dhs;
    hide Coherent, WalksAll, Distinct;
    DhsRoundTrip(c, o.sessions, p.sessions, p.dhs);
    RestrictAll(p.dhs, o.sessions);
    DhsRepeat(c, o.lost, p.lost, p.dhs);
  }

  lemma PeersRoundTrip(c: Codec, p: Peers, o: Orders)
    requires CodecLaws(c) && Coherent(p) && WalksAll(o, p)
    ensures LoadPeers(c, TablesOf(c, p, o)) == Ok(p)
  {
    hide LoadDhs, Rows, AltRows, OwnRows, LoadRatchets, LoadOwn, LoadAlts, Restrict, CodecLaws;
    RatchetsRoundTrip(c, o.sessions, p.sessions, p.dhs);
    RatchetsRoundTrip(c, o.lost, p.lost, p.dhs);
    OwnRoundTrip(o.own, p.own);
    AltsRoundTrip(c, o.alts, p.alts);
    PinnedRoundTrip(c, p, o);
    hide Coherent;
    RestrictAll(p.sessions, o.sessions);
    RestrictAll(p.lost, o.lost);
    RestrictAll(p.own, o.own);
    RestrictAll(p.alts, o.alts);
  }

  /** Whatever order the hash maps are walked in, a coherent state that fits a record passes every check of the loader
      and comes back exactly as it was, under the vault it is loaded with. */
  lemma StateRoundTrip(c: Codec, st: State, o: Orders, metadata: Bytes, vault: Vault.Vault)
    requires CodecLaws(c) && Coherent(st.peers) && WalksAll(o, st.peers)
    requires |st.prekeys.otks| <= MAX_OPK && Distinct(Ids(st.prekeys.otks)) && c.client(st.client) == Some(st.client)
    requires |Serialise(c, st, o, metadata)| <= MAX_BYTES
    ensures Load(c, st.profile, vault, Serialise(c, st, o, metadata)) == Ok((st.(vault := vault), metadata))
  {
    var p := PayloadOf(c, st, o, metadata);
    ChecksPass(c, st, o, metadata);
    PeersRoundTrip(c, st.peers, o);
    assert LoadSecrets(c, p.identity, p.prekeys) == Ok(st.client);
    hide Put, ReadWhole, Refusal, LoadPeers, LoadSecrets, TablesOf, Coherent, WalksAll;
    PayloadRoundTrip(p);
  }

  // ----- what the loader accepts

  /** The places of the rows of one peer. */
  ghost function Places(k: Key, rows: seq<AltRow>): set<nat> { set i: nat | i < |rows| && rows[i].peer == k }

  lemma {:induction false} CountIsPlaces(k: Key, rows: seq<AltRow>)
    ensures Count(k, rows) == |Places(k, rows)|
    decreases |rows|
  {
    if rows == [] {
      assert Places(k, rows) == {};
    } else {
      var n := |rows| - 1;
      var front := rows[..n];
      CountIsPlaces(k, front);
      assert Places(k, rows) == if rows[n].peer == k then Places(k, front) + {n} else Places(k, front);
    }
  }

  /** Version 1, this profile, at most 1024 sessions, lost and own inits and 256 one-time prekeys, no peer twice in a table, no
      prekey id twice, and no peer with more than three alternates. */
  ghost predicate Acceptable(p: Payload, profile: Bytes) {
    var t := p.tables;
    && p.identity.version == 1 && p.identity.profile == profile
    && |t.sessions| <= 1024 && |t.lost| <= 1024 && |t.own| <= 1024 && |p.prekeys.otks| <= 256
    && (forall i, j :: 0 <= i < j < |t.sessions| ==> t.sessions[i].peer != t.sessions[j].peer)
    && (forall i, j :: 0 <= i < j < |t.lost| ==> t.lost[i].peer != t.lost[j].peer)
    && (forall i, j :: 0 <= i < j < |t.own| ==> t.own[i].peer != t.own[j].peer)
    && (forall i, j :: 0 <= i < j < |p.prekeys.otks| ==> p.prekeys.otks[i].id != p.prekeys.otks[j].id)
    && (forall k :: |Places(k, t.alts)| <= 3)
  }

  lemma AlternatesExactly(rows: seq<AltRow>)
    ensures AlternatesFit(rows) <==> forall k :: |Places(k, rows)| <= 3
  {
    forall k ensures Count(k, rows) == |Places(k, rows)| { CountIsPlaces(k, rows); }
    hide Count;
    if AlternatesFit(rows) {
      forall k ensures |Places(k, rows)| <= 3 {
        if i :| 0 <= i < |rows| && rows[i].peer == k {
          assert Count(rows[i].peer, rows) <= MAX_ALTERNATES;
        } else {
          assert Places(k, rows) == {};
        }
      }
    }
  }

  lemma DistinctPeers(a: seq<Row>, b: seq<OwnRow>, o: seq<Otk>)
    ensures Distinct(RowPeers(a)) <==> forall i, j :: 0 <= i < j < |a| ==> a[i].peer != a[j].peer
    ensures Distinct(OwnPeers(b)) <==> forall i, j :: 0 <= i < j < |b| ==> b[i].peer != b[j].peer
    ensures Distinct(Ids(o)) <==> forall i, j :: 0 <= i < j < |o| ==> o[i].id != o[j].id
  {
    assert forall i :: 0 <= i < |a| ==> RowPeers(a)[i] == a[i].peer;
    assert forall i :: 0 <= i < |b| ==> OwnPeers(b)[i] == b[i].peer;
    assert forall i :: 0 <= i < |o| ==> Ids(o)[i] == o[i].id;
  }

  /** The checks refuse exactly what is not acceptable. */
  lemma RefusalExactly(p: Payload, profile: Bytes)
    ensures Refusal(p, profile).None? <==> Acceptable(p, profile)
  {
    var t := p.tables;
    AlternatesExactly(t.alts);
    DistinctPeers(t.sessions, t.own, p.prekeys.otks);
    DistinctPeers(t.lost, t.own, p.prekeys.otks);
    hide AlternatesFit, Distinct, RowPeers, OwnPeers, Ids, Places;
  }

  predicate RowsRead(c: Codec, rows: seq<Row>) { forall i :: 0 <= i < |rows| ==> c.read(rows[i].bytes).Some? }

  predicate AltsRead(c: Codec, rows: seq<AltRow>) { forall i :: 0 <= i < |rows| ==> c.read(rows[i].bytes).Some? }

  lemma {:induction false} RatchetsExactly(c: Codec, rows: seq<Row>)
    ensures LoadRatchets(c, rows).Some? <==> RowsRead(c, rows)
    decreases |rows|
  {
    if rows != [] { RatchetsExactly(c, rows[..|rows| - 1]); }
  }

  lemma {:induction false} AltsExactly(c: Codec, rows: seq<AltRow>)
    ensures LoadAlts(c, rows).Some? <==> AltsRead(c, rows)
    decreases |rows|
  {
    if rows != [] { AltsExactly(c, rows[..|rows| - 1]); }
  }

  /** Protected memory takes the secrets, the router its identity, and every ratchet reads. */
  ghost predicate Restorable(c: Codec, p: Payload) {
    && c.identity(p.identity.signSeed, p.identity.dhSecret) && c.client(p.identity.client).Some?
    && c.prekey(p.prekeys.spkSecret) && (forall k :: 0 <= k < |p.prekeys.otks| ==> c.prekey(p.prekeys.otks[k].secret))
    && RowsRead(c, p.tables.sessions) && RowsRead(c, p.tables.lost) && AltsRead(c, p.tables.alts)
  }

  lemma LoadsRead(c: Codec, profile: Bytes, vault: Vault.Vault, bytes: Bytes)
    requires ReadWhole(bytes).Some?
    ensures var p := ReadWhole(bytes).value; Load(c, profile, vault, bytes).Ok? <==> Acceptable(p, profile) && Restorable(c, p)
  {
    hide ReadWhole, Refusal, Acceptable, LoadRatchets, LoadAlts, LoadDhs, LoadOwn, RowsRead, AltsRead;
    var p := ReadWhole(bytes).value;
    RefusalExactly(p, profile);
    RatchetsExactly(c, p.tables.sessions);
    RatchetsExactly(c, p.tables.lost);
    AltsExactly(c, p.tables.alts);
  }

  /** A profile loads if and only if its bytes are a payload within 16 MiB, printed, that is acceptable and can be restored. */
  lemma LoadsExactly(c: Codec, profile: Bytes, vault: Vault.Vault, bytes: Bytes)
    ensures Load(c, profile, vault, bytes).Ok? <==>
            exists p :: bytes == Put(p) && |bytes| <= 16 * 1024 * 1024 && Acceptable(p, profile) && Restorable(c, p)
  {
    hide ReadWhole, Put, Acceptable, Restorable, Refusal, LoadSecrets, LoadPeers;
    forall p ensures ReadWhole(bytes) == Some(p) <==> bytes == Put(p) && |bytes| <= MAX_BYTES { ReadExactly(bytes, p); }
    if ReadWhole(bytes).Some? { LoadsRead(c, profile, vault, bytes); }
  }

  // ----- the same, loop by loop

  lemma CountGrows(k: Key, rows: seq<AltRow>, i: nat)
    requires i <= |rows|
    ensures Count(k, rows[..i]) <= Count(k, rows)
  {
    Cut(rows, i);
    CountAppend(k, rows[..i], rows[i..]);
  }

  /** The `HashSet` walk that looks for a repeated key. */
  method FindRepeat<T(==)>(keys: seq<T>) returns (repeated: bool)
    ensures repeated == !Distinct(keys)
  {
    var seen: set<T> := {};
    var i := 0;
    while i < |keys|
      invariant i <= |keys|
      invariant forall k :: k in seen <==> exists j :: 0 <= j < i && keys[j] == k
      invariant forall a, b :: 0 <= a < b < i ==> keys[a] != keys[b]
    {
      if keys[i] in seen { return true; }
      seen := seen + {keys[i]};
      i := i + 1;
    }
    return false;
  }

  /** Counts rows per peer and stops at the fourth of one peer. */
  method FindOverflow(rows: seq<AltRow>) returns (over: bool)
    ensures over == !AlternatesFit(rows)
  {
    var counts: map<Key, nat> := map[];
    var i := 0;
    while i < |rows|
      invariant i <= |rows|
      invariant forall k: Key :: Count(k, rows[..i]) == (if k in counts then counts[k] else 0)
      invariant forall k: Key :: Count(k, rows[..i]) <= MAX_ALTERNATES
    {
      var k := rows[i].peer;
      var n := (if k in counts then counts[k] else 0) + 1;
      assert rows[..i + 1][..i] == rows[..i];
      if n > MAX_ALTERNATES {
        CountGrows(k, rows, i + 1);
        return true;
      }
      counts := counts[k := n];
      i := i + 1;
    }
    assert rows[..i] == rows;
    return false;
  }

  /** Ratchets and pinned keys of one table, row by row. */
  method RestoreRows(c: Codec, rows: seq<Row>, pinned: map<Key, Key>) returns (r: Option<(map<Key, Ratchet>, map<Key, Key>)>)
    ensures r == if LoadRatchets(c, rows).None? then None else Some((LoadRatchets(c, rows).value, LoadDhs(pinned, rows)))
  {
    var m: map<Key, Ratchet> := map[];
    var dhs := pinned;
    var i := 0;
    while i < |rows|
      invariant i <= |rows|
      invariant LoadRatchets(c, rows[..i]) == Some(m) && LoadDhs(pinned, rows[..i]) == dhs
    {
      assert rows[..i + 1][..i] == rows[..i];
      var ratchet := c.read(rows[i].bytes);
      if ratchet.None? {
        NoRatchets(c, rows, i + 1);
        return None;
      }
      m := m[rows[i].peer := ratchet.value];
      dhs := dhs[rows[i].peer := rows[i].dh];
      i := i + 1;
    }
    assert rows[..i] == rows;
    return Some((m, dhs));
  }

  lemma {:induction false} NoRatchets(c: Codec, rows: seq<Row>, i: nat)
    requires i <= |rows| && LoadRatchets(c, rows[..i]).None?
    ensures LoadRatchets(c, rows).None?
    decreases |rows|
  {
    if i < |rows| {
      var front := rows[..|rows| - 1];
      assert front[..i] == rows[..i];
      NoRatchets(c, front, i);
    } else {
      assert rows[..i] == rows;
    }
  }

  method RestoreOwn(rows: seq<OwnRow>) returns (m: map<Key, OwnInit>)
    ensures m == LoadOwn(rows)
  {
    m := map[];
    var i := 0;
    while i < |rows|
      invariant i <= |rows| && m == LoadOwn(rows[..i])
    {
      assert rows[..i + 1][..i] == rows[..i];
      m := m[rows[i].peer := OwnInit(rows[i].dh, rows[i].ts)];
      i := i + 1;
    }
    assert rows[..i] == rows;
  }

  method RestoreAlternates(c: Codec, rows: seq<AltRow>) returns (r: Option<map<Key, seq<Ratchet>>>)
    ensures r == LoadAlts(c, rows)
  {
    var m: map<Key, seq<Ratchet>> := map[];
    var i := 0;
    while i < |rows|
      invariant i <= |rows| && LoadAlts(c, rows[..i]) == Some(m)
    {
      assert rows[..i + 1][..i] == rows[..i];
      var ratchet := c.read(rows[i].bytes);
      if ratchet.None? {
        NoAlts(c, rows, i + 1);
        return None;
      }
      var list := ListOf(m, rows[i].peer);
      if |list| < MAX_ALTERNATES { list := list + [ratchet.value]; }
      m := m[rows[i].peer := list];
      i := i + 1;
    }
    assert rows[..i] == rows;
    return Some(m);
  }

  lemma {:induction false} NoAlts(c: Codec, rows: seq<AltRow>, i: nat)
    requires i <= |rows| && LoadAlts(c, rows[..i]).None?
    ensures LoadAlts(c, rows).None?
    decreases |rows|
  {
    if i < |rows| {
      var front := rows[..|rows| - 1];
      assert front[..i] == rows[..i];
      NoAlts(c, front, i);
    } else {
      assert rows[..i] == rows;
    }
  }

  method Check(p: Payload, profile: Bytes) returns (refusal: Option<LoadError>)
    ensures refusal == Refusal(p, profile)
  {
    hide Distinct, AlternatesFit;
    var t := p.tables;
    if p.identity.version != 1 { return Some(BadVersion); }
    if p.identity.profile != profile { return Some(WrongProfile); }
    if |t.sessions| > MAX_SESSIONS { return Some(TooManySessions); }
    if |p.prekeys.otks| > MAX_OPK { return Some(TooManyOtks); }
    if |t.lost| > MAX_SESSIONS { return Some(TooManyLost); }
    if |t.own| > MAX_SESSIONS { return Some(TooManyOwn); }
    var bad := FindRepeat(RowPeers(t.sessions));
    if bad { return Some(DuplicateSession); }
    bad := FindRepeat(RowPeers(t.lost));
    if bad { return Some(DuplicateLost); }
    bad := FindRepeat(OwnPeers(t.own));
    if bad { return Some(DuplicateOwn); }
    bad := FindRepeat(Ids(p.prekeys.otks));
    if bad { return Some(DuplicateOtk); }
    bad := FindOverflow(t.alts);
    if bad { return Some(TooManyAlternates); }
    return None;
  }

  method RestoreSecrets(c: Codec, i: Identity, p: Prekeys) returns (r: Result<Bytes, LoadError>)
    ensures r == LoadSecrets(c, i, p)
  {
    if !c.identity(i.signSeed, i.dhSecret) { return Err(BadIdentity); }
    var client := c.client(i.client);
    if client.None? { return Err(BadClient); }
    if !c.prekey(p.spkSecret) { return Err(BadPrekey); }
    for k := 0 to |p.otks|
      invariant forall j :: 0 <= j < k ==> c.prekey(p.otks[j].secret)
    {
      if !c.prekey(p.otks[k].secret) { return Err(BadOtk); }
    }
    return Ok(client.value);
  }

  /** `deserialize_vault_payload`, step by step. */
  method Restore(c: Codec, profile: Bytes, vault: Vault.Vault, bytes: Bytes) returns (r: Result<(State, Bytes), LoadError>)
    ensures r == Load(c, profile, vault, bytes)
  {
    hide ReadWhole, Refusal, LoadSecrets, LoadRatchets, LoadAlts, LoadDhs, LoadOwn;
    var read := ReadWhole(bytes);
    if read.None? { return Err(Malformed); }
    var p := read.value;
    var refusal := Check(p, profile);
    if refusal.Some? { return Err(refusal.value); }
    var client := RestoreSecrets(c, p.identity, p.prekeys);
    if client.Err? { return Err(client.error); }
    var sessions := RestoreRows(c, p.tables.sessions, map[]);
    if sessions.None? { return Err(BadRatchet); }
    var lost := RestoreRows(c, p.tables.lost, sessions.value.1);
    if lost.None? { return Err(BadRatchet); }
    var own := RestoreOwn(p.tables.own);
    var alts := RestoreAlternates(c, p.tables.alts);
    if alts.None? { return Err(BadRatchet); }
    var peers := Peers(sessions.value.0, lost.value.1, lost.value.0, own, alts.value);
    var i := p.identity;
    return Ok((State(i.profile, vault, i.signSeed, i.dhSecret, client.value, p.prekeys, peers), p.metadata));
  }

  method WriteRows(c: Codec, order: seq<Key>, m: map<Key, Ratchet>, dhs: map<Key, Key>) returns (rows: seq<Row>)
    requires forall i :: 0 <= i < |order| ==> order[i] in m
    ensures rows == Rows(c, order, m, dhs)
  {
    rows := [];
    for n := 0 to |order|
      invariant rows == Rows(c, order, m, dhs)[..n]
    {
      rows := rows + [Row(order[n], DhOf(dhs, order[n]), c.put(m[order[n]]))];
    }
  }

  method WriteAlternates(c: Codec, order: seq<Key>, m: map<Key, seq<Ratchet>>) returns (rows: seq<AltRow>)
    requires forall i :: 0 <= i < |order| ==> order[i] in m
    ensures rows == AltRows(c, order, m)
  {
    rows := [];
    for n := 0 to |order|
      invariant rows == AltRows(c, order[..n], m)
    {
      assert order[..n + 1][..n] == order[..n];
      var list := m[order[n]];
      ghost var before := rows;
      for j := 0 to |list|
        invariant rows == before + AltRowsOf(c, order[n], list[..j])
      {
        assert AltRowsOf(c, order[n], list[..j + 1]) == AltRowsOf(c, order[n], list[..j]) + [AltRow(order[n], c.put(list[j]))];
        rows := rows + [AltRow(order[n], c.put(list[j]))];
      }
      assert list[..|list|] == list;
    }
    assert order[..|order|] == order;
  }

  /** `serialize_vault_payload`, step by step. */
  method Write(c: Codec, st: State, o: Orders, metadata: Bytes) returns (bytes: Bytes)
    requires WalksAll(o, st.peers)
    ensures bytes == Serialise(c, st, o, metadata)
  {
    var p := st.peers;
    var sessions := WriteRows(c, o.sessions, p.sessions, p.dhs);
    var lost := WriteRows(c, o.lost, p.lost, p.dhs);
    var own := OwnRows(o.own, p.own);
    var alts := WriteAlternates(c, o.alts, p.alts);
    hide Put, Rows, AltRows;
    bytes := Put(Payload(Identity(1, st.profile, st.signSeed, st.dhSecret, st.client), st.prekeys,
                         Tables(sessions, lost, own, alts), metadata));
  }
}
