/** The plaintext of a profile record: `VaultPayload` as bincode prints and reads it. */
module Payload {
  import opened Prelude
  import opened Wire

  const MAX_BYTES := 16 * 1024 * 1024

  datatype Otk = Otk(id: I64, secret: Key)

  /** A row of `sessions` or of `lost_inits`. */
  datatype Row = Row(peer: Key, dh: Key, bytes: Bytes)

  datatype OwnRow = OwnRow(peer: Key, dh: Key, ts: I64)

  datatype AltRow = AltRow(peer: Key, bytes: Bytes)

  datatype Identity = Identity(version: byte, profile: Bytes, signSeed: Key, dhSecret: Key, client: Bytes)

  datatype Prekeys = Prekeys(spkId: I64, spkSecret: Key, otks: seq<Otk>, next: I64)

  datatype Tables = Tables(sessions: seq<Row>, lost: seq<Row>, own: seq<OwnRow>, alts: seq<AltRow>)

  /** bincode prints the fields of nested structures one after the other, so the grouping leaves no trace. */
  datatype Payload = Payload(identity: Identity, prekeys: Prekeys, tables: Tables, metadata: Bytes)

  // ----- rows

  function PutOtk(o: Otk): Bytes { PutI64(o.id) + o.secret }

  function ReadOtk(s: Bytes): Read<Otk> {
    var id := ReadI64(s);
    if id.None? then None
    else
      var secret := ReadKey(id.value.1);
      if secret.None? then None else Some((Otk(id.value.0, secret.value.0), secret.value.1))
  }

  function PutRow(r: Row): Bytes { r.peer + (r.dh + PutBlob(r.bytes)) }

  function ReadRow(s: Bytes): Read<Row> {
    var peer := ReadKey(s);
    if peer.None? then None
    else
      var dh := ReadKey(peer.value.1);
      if dh.None? then None
      else
        var bytes := ReadBlob(dh.value.1);
        if bytes.None? then None else Some((Row(peer.value.0, dh.value.0, bytes.value.0), bytes.value.1))
  }

  function PutOwn(r: OwnRow): Bytes { r.peer + (r.dh + PutI64(r.ts)) }

  function ReadOwn(s: Bytes): Read<OwnRow> {
    var peer := ReadKey(s);
    if peer.None? then None
    else
      var dh := ReadKey(peer.value.1);
      if dh.None? then None
      else
        var ts := ReadI64(dh.value.1);
        if ts.None? then None else Some((OwnRow(peer.value.0, dh.value.0, ts.value.0), ts.value.1))
  }

  function PutAlt(r: AltRow): Bytes { r.peer + PutBlob(r.bytes) }

  function ReadAlt(s: Bytes): Read<AltRow> {
    var peer := ReadKey(s);
    if peer.None? then None
    else
      var bytes := ReadBlob(peer.value.1);
      if bytes.None? then None else Some((AltRow(peer.value.0, bytes.value.0), bytes.value.1))
  }

  lemma OtkInverse()
    ensures Inverse(PutOtk, ReadOtk)
  {
    hide ReadKey, ReadI64, PutI64;
    forall o: Otk, rest: Bytes ensures ReadOtk(PutOtk(o) + rest) == Some((o, rest)) {
      Assoc(PutI64(o.id), o.secret, rest);
      I64RoundTrip(o.id, o.secret + rest);
      KeyRoundTrip(o.secret, rest);
    }
  }

  lemma RowInverse()
    ensures Inverse(PutRow, ReadRow)
  {
    hide ReadKey, ReadBlob, PutBlob;
    forall r: Row, rest: Bytes | |PutRow(r)| < TWO64 ensures ReadRow(PutRow(r) + rest) == Some((r, rest)) {
      var blob := PutBlob(r.bytes);
      Assoc(r.peer, r.dh + blob, rest);
      Assoc(r.dh, blob, rest);
      KeyRoundTrip(r.peer, r.dh + (blob + rest));
      KeyRoundTrip(r.dh, blob + rest);
      BlobRoundTrip(r.bytes, rest);
    }
  }

  lemma OwnInverse()
    ensures Inverse(PutOwn, ReadOwn)
  {
    hide ReadKey, ReadI64, PutI64;
    forall r: OwnRow, rest: Bytes ensures ReadOwn(PutOwn(r) + rest) == Some((r, rest)) {
      var ts := PutI64(r.ts);
      Assoc(r.peer, r.dh + ts, rest);
      Assoc(r.dh, ts, rest);
      KeyRoundTrip(r.peer, r.dh + (ts + rest));
      KeyRoundTrip(r.dh, ts + rest);
      I64RoundTrip(r.ts, rest);
    }
  }

  lemma AltInverse()
    ensures Inverse(PutAlt, ReadAlt)
  {
    hide ReadKey, ReadBlob, PutBlob;
    forall r: AltRow, rest: Bytes | |PutAlt(r)| < TWO64 ensures ReadAlt(PutAlt(r) + rest) == Some((r, rest)) {
      var blob := PutBlob(r.bytes);
      Assoc(r.peer, blob, rest);
      KeyRoundTrip(r.peer, blob + rest);
      BlobRoundTrip(r.bytes, rest);
    }
  }

  // ----- groups of fields

  function PutIdentity(i: Identity): Bytes {
    [i.version] + (PutBlob(i.profile) + (i.signSeed + (i.dhSecret + PutBlob(i.client))))
  }

  function ReadIdentity(s: Bytes): Read<Identity> {
    var version := ReadU8(s);
    if version.None? then None
    else
      var profile := ReadBlob(version.value.1);
      if profile.None? then None
      else
        var sign := ReadKey(profile.value.1);
        if sign.None? then None
        else
          var dh := ReadKey(sign.value.1);
          if dh.None? then None
          else
            var client := ReadBlob(dh.value.1);
            if client.None? then None
            else Some((Identity(version.value.0, profile.value.0, sign.value.0, dh.value.0, client.value.0), client.value.1))
  }

  lemma IdentityRoundTrip(i: Identity, rest: Bytes)
    requires |PutIdentity(i)| < TWO64
    ensures ReadIdentity(PutIdentity(i) + rest) == Some((i, rest))
  {
    hide ReadKey, ReadBlob, PutBlob;
    var client := PutBlob(i.client);
    var dh := i.dhSecret + client;
    var sign := i.signSeed + dh;
    var profile := PutBlob(i.profile) + sign;
    Assoc([i.version], profile, rest);
    Cons(i.version, profile + rest);
    Assoc(PutBlob(i.profile), sign, rest);
    BlobRoundTrip(i.profile, sign + rest);
    Assoc(i.signSeed, dh, rest);
    KeyRoundTrip(i.signSeed, dh + rest);
    Assoc(i.dhSecret, client, rest);
    KeyRoundTrip(i.dhSecret, client + rest);
    BlobRoundTrip(i.client, rest);
  }

  function PutPrekeys(p: Prekeys): Bytes { PutI64(p.spkId) + (p.spkSecret + (PutList(p.otks, PutOtk) + PutI64(p.next))) }

  function ReadPrekeys(s: Bytes): Read<Prekeys> {
    var spk := ReadI64(s);
    if spk.None? then None
    else
      var secret := ReadKey(spk.value.1);
      if secret.None? then None
      else
        var otks := ReadList(secret.value.1, ReadOtk);
        if otks.None? then None
        else
          var next := ReadI64(otks.value.1);
          if next.None? then None
          else Some((Prekeys(spk.value.0, secret.value.0, otks.value.0, next.value.0), next.value.1))
  }

  lemma PrekeysRoundTrip(p: Prekeys, rest: Bytes)
    requires |PutPrekeys(p)| < TWO64
    ensures ReadPrekeys(PutPrekeys(p) + rest) == Some((p, rest))
  {
    hide ReadKey, ReadI64, PutI64, ReadList, PutList, Inverse;
    var next := PutI64(p.next);
    var otks := PutList(p.otks, PutOtk) + next;
    var secret := p.spkSecret + otks;
    Assoc(PutI64(p.spkId), secret, rest);
    I64RoundTrip(p.spkId, secret + rest);
    Assoc(p.spkSecret, otks, rest);
    KeyRoundTrip(p.spkSecret, otks + rest);
    Assoc(PutList(p.otks, PutOtk), next, rest);
    OtkInverse();
    ListRoundTrip(p.otks, PutOtk, ReadOtk, next + rest);
    I64RoundTrip(p.next, rest);
  }

  function PutTables(t: Tables): Bytes {
    PutList(t.sessions, PutRow) + (PutList(t.lost, PutRow) + (PutList(t.own, PutOwn) + PutList(t.alts, PutAlt)))
  }

  function ReadTables(s: Bytes): Read<Tables> {
    var sessions := ReadList(s, ReadRow);
    if sessions.None? then None
    else
      var lost := ReadList(sessions.value.1, ReadRow);
      if lost.None? then None
      else
        var own := ReadList(lost.value.1, ReadOwn);
        if own.None? then None
        else
          var alts := ReadList(own.value.1, ReadAlt);
          if alts.None? then None
          else Some((Tables(sessions.value.0, lost.value.0, own.value.0, alts.value.0), alts.value.1))
  }

  lemma TablesRoundTrip(t: Tables, rest: Bytes)
    requires |PutTables(t)| < TWO64
    ensures ReadTables(PutTables(t) + rest) == Some((t, rest))
  {
    hide ReadList, PutList, Inverse;
    var alts := PutList(t.alts, PutAlt);
    var own := PutList(t.own, PutOwn) + alts;
    var lost := PutList(t.lost, PutRow) + own;
    RowInverse();
    OwnInverse();
    AltInverse();
    Assoc(PutList(t.sessions, PutRow), lost, rest);
    ListRoundTrip(t.sessions, PutRow, ReadRow, lost + rest);
    Assoc(PutList(t.lost, PutRow), own, rest);
    ListRoundTrip(t.lost, PutRow, ReadRow, own + rest);
    Assoc(PutList(t.own, PutOwn), alts, rest);
    ListRoundTrip(t.own, PutOwn, ReadOwn, alts + rest);
    ListRoundTrip(t.alts, PutAlt, ReadAlt, rest);
  }

  // ----- the payload

  function Put(p: Payload): Bytes {
    PutIdentity(p.identity) + (PutPrekeys(p.prekeys) + (PutTables(p.tables) + PutBlob(p.metadata)))
  }

  /** Reads a whole payload; too many bytes or bytes left over are an error. */
  function ReadWhole(s: Bytes): Option<Payload> {
    if |s| > MAX_BYTES then None
    else
      var i := ReadIdentity(s);
      if i.None? then None
      else
        var p := ReadPrekeys(i.value.1);
        if p.None? then None
        else
          var t := ReadTables(p.value.1);
          if t.None? then None
          else
            var m := ReadBlob(t.value.1);
            if m.None? || m.value.1 != [] then None
            else Some(Payload(i.value.0, p.value.0, t.value.0, m.value.0))
  }

  /** Every payload within the reader's limit is read back as it was printed. */
  lemma PayloadRoundTrip(p: Payload)
    requires |Put(p)| <= MAX_BYTES
    ensures ReadWhole(Put(p)) == Some(p)
  {
    hide PutIdentity, ReadIdentity, PutPrekeys, ReadPrekeys, PutTables, ReadTables, PutBlob, ReadBlob;
    var m := PutBlob(p.metadata);
    var t := PutTables(p.tables) + m;
    IdentityRoundTrip(p.identity, PutPrekeys(p.prekeys) + t);
    PrekeysRoundTrip(p.prekeys, t);
    TablesRoundTrip(p.tables, m);
    BlobRoundTrip(p.metadata, []);
    Nil(m);
  }

  // ----- what is read was printed

  lemma OtkCanonical()
    ensures Canonical(PutOtk, ReadOtk)
  {
    hide ReadKey, ReadI64, PutI64;
    forall s | ReadOtk(s).Some? ensures s == PutOtk(ReadOtk(s).value.0) + ReadOtk(s).value.1 {
      I64Canonical(s);
      var (id, t) := ReadI64(s).value;
      KeyCanonical(t);
      Assoc(PutI64(id), ReadKey(t).value.0, ReadKey(t).value.1);
    }
  }

  lemma RowCanonical()
    ensures Canonical(PutRow, ReadRow)
  {
    hide ReadKey, ReadBlob, PutBlob;
    forall s | ReadRow(s).Some? ensures s == PutRow(ReadRow(s).value.0) + ReadRow(s).value.1 {
      KeyCanonical(s);
      var (peer, t) := ReadKey(s).value;
      KeyCanonical(t);
      var (dh, u) := ReadKey(t).value;
      BlobCanonical(u);
      var (b, rest) := ReadBlob(u).value;
      Assoc(dh, PutBlob(b), rest);
      Assoc(peer, dh + PutBlob(b), rest);
    }
  }

  lemma OwnCanonical()
    ensures Canonical(PutOwn, ReadOwn)
  {
    hide ReadKey, ReadI64, PutI64;
    forall s | ReadOwn(s).Some? ensures s == PutOwn(ReadOwn(s).value.0) + ReadOwn(s).value.1 {
      KeyCanonical(s);
      var (peer, t) := ReadKey(s).value;
      KeyCanonical(t);
      var (dh, u) := ReadKey(t).value;
      I64Canonical(u);
      var (ts, rest) := ReadI64(u).value;
      Assoc(dh, PutI64(ts), rest);
      Assoc(peer, dh + PutI64(ts), rest);
    }
  }

  lemma AltCanonical()
    ensures Canonical(PutAlt, ReadAlt)
  {
    hide ReadKey, ReadBlob, PutBlob;
    forall s | ReadAlt(s).Some? ensures s == PutAlt(ReadAlt(s).value.0) + ReadAlt(s).value.1 {
      KeyCanonical(s);
      var (peer, t) := ReadKey(s).value;
      BlobCanonical(t);
      Assoc(peer, PutBlob(ReadBlob(t).value.0), ReadBlob(t).value.1);
    }
  }

  lemma IdentityCanonical(s: Bytes)
    requires ReadIdentity(s).Some?
    ensures var (i, rest) := ReadIdentity(s).value; s == PutIdentity(i) + rest
  {
    hide ReadKey, ReadBlob, PutBlob;
    var (i, rest) := ReadIdentity(s).value;
    var s1 := s[1..];
    Cut(s, 1);
    assert s[..1] == [s[0]];
    BlobCanonical(s1);
    var s2 := ReadBlob(s1).value.1;
    KeyCanonical(s2);
    var s3 := ReadKey(s2).value.1;
    KeyCanonical(s3);
    var s4 := ReadKey(s3).value.1;
    BlobCanonical(s4);
    var client := PutBlob(i.client);
    var dh := i.dhSecret + client;
    var sign := i.signSeed + dh;
    Assoc(i.dhSecret, client, rest);
    Assoc(i.signSeed, dh, rest);
    Assoc(PutBlob(i.profile), sign, rest);
    Assoc([i.version], PutBlob(i.profile) + sign, rest);
  }

  lemma PrekeysCanonical(s: Bytes)
    requires ReadPrekeys(s).Some?
    ensures var (p, rest) := ReadPrekeys(s).value; s == PutPrekeys(p) + rest
  {
    hide ReadKey, ReadI64, PutI64, ReadList, PutList, Canonical;
    var (p, rest) := ReadPrekeys(s).value;
    I64Canonical(s);
    var s1 := ReadI64(s).value.1;
    KeyCanonical(s1);
    var s2 := ReadKey(s1).value.1;
    OtkCanonical();
    ListCanonical(s2, PutOtk, ReadOtk);
    var s3 := ReadList(s2, ReadOtk).value.1;
    I64Canonical(s3);
    var otks := PutList(p.otks, PutOtk) + PutI64(p.next);
    Assoc(PutList(p.otks, PutOtk), PutI64(p.next), rest);
    Assoc(p.spkSecret, otks, rest);
    Assoc(PutI64(p.spkId), p.spkSecret + otks, rest);
  }

  lemma TablesCanonical(s: Bytes)
    requires ReadTables(s).Some?
    ensures var (t, rest) := ReadTables(s).value; s == PutTables(t) + rest
  {
    hide ReadList, PutList, Canonical;
    var (t, rest) := ReadTables(s).value;
    RowCanonical();
    OwnCanonical();
    AltCanonical();
    ListCanonical(s, PutRow, ReadRow);
    var s1 := ReadList(s, ReadRow).value.1;
    ListCanonical(s1, PutRow, ReadRow);
    var s2 := ReadList(s1, ReadRow).value.1;
    ListCanonical(s2, PutOwn, ReadOwn);
    var s3 := ReadList(s2, ReadOwn).value.1;
    ListCanonical(s3, PutAlt, ReadAlt);
    var alts := PutList(t.alts, PutAlt);
    var own := PutList(t.own, PutOwn) + alts;
    var lost := PutList(t.lost, PutRow) + own;
    Assoc(PutList(t.own, PutOwn), alts, rest);
    Assoc(PutList(t.lost, PutRow), own, rest);
    Assoc(PutList(t.sessions, PutRow), lost, rest);
  }

  /** The reader accepts nothing but printed payloads within its limit: no other bytes, and none left over. */
  lemma PayloadCanonical(s: Bytes)
    ensures ReadWhole(s).Some? ==> s == Put(ReadWhole(s).value) && |s| <= 16 * 1024 * 1024
  {
    hide PutIdentity, ReadIdentity, PutPrekeys, ReadPrekeys, PutTables, ReadTables, PutBlob, ReadBlob;
    if ReadWhole(s).Some? {
      IdentityCanonical(s);
      var s1 := ReadIdentity(s).value.1;
      PrekeysCanonical(s1);
      var s2 := ReadPrekeys(s1).value.1;
      TablesCanonical(s2);
      var s3 := ReadTables(s2).value.1;
      BlobCanonical(s3);
      Nil(PutBlob(ReadBlob(s3).value.0));
    }
  }

  /** So bytes are read as `p` exactly when they are `p` printed, within the limit. */
  lemma ReadExactly(s: Bytes, p: Payload)
    ensures ReadWhole(s) == Some(p) <==> s == Put(p) && |s| <= MAX_BYTES
  {
    hide Put, ReadWhole;
    PayloadCanonical(s);
    if s == Put(p) && |s| <= MAX_BYTES { PayloadRoundTrip(p); }
  }
}
