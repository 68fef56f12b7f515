/** Encrypted browser profile records: the header and its key wraps, the record printer and parser, and the choice of
    the newest complete record. */
module Vault {
  import opened Prelude

  const MAX_HEADER := 32 * 1024
  const MAX_RECORD := 16 * 1024 * 1024
  const MAGIC: Bytes := [0x47, 0x49, 0x50, 0x4E, 0x59, 0x42, 0x57, 0x31]

  datatype Wrapped = Wrapped(nonce: Bytes, ciphertext: Bytes)

  datatype Passkey = Passkey(credential: Bytes, rp: Bytes, salt: Bytes, wrapped: Wrapped)

  datatype Header = Header(
    version: nat, profile: Bytes, memoryKib: nat, iterations: nat, salt: Bytes, password: Wrapped, passkeys: seq<Passkey>)

  datatype Vault = Vault(header: Header, key: Bytes, generation: nat)

  datatype Record = Record(header: Header, generation: nat, aad: Bytes, nonce: Bytes, ciphertext: Bytes)

  datatype Error =
    | BadProfileName | BadPassphrase | BadPrf | WrongCredentials | StorageLimit | GenerationOverflow | HeaderLimit
    | CommitOrder | BadPasskey | BadRecord | TornRecord | BadHeaderSize | BadHeader | BadParameters | BadPayloadSize
    | ProfileMismatch | NotEnrolled | AuthenticationFailed | NoRecord

  /** The primitives, kept symbolic: key derivations, an authenticated cipher, a digest and the header's JSON. */
  datatype Crypto = Crypto(
    passwordKey: (Bytes, Bytes) -> Bytes,
    passkeyKey: (Bytes, Bytes, Bytes, Bytes) -> Bytes,
    seal: (Bytes, Bytes, Bytes, Bytes) -> Bytes,
    open: (Bytes, Bytes, Bytes, Bytes) -> Option<Bytes>,
    digest: Bytes -> Bytes,
    toJson: Header -> Bytes,
    fromJson: Bytes -> Option<Header>)

  ghost predicate CipherLaws(c: Crypto) {
    && (forall k, n, a, m :: c.open(k, n, a, c.seal(k, n, a, m)) == Some(m))
    && (forall k, n, a, m :: |c.seal(k, n, a, m)| == |m| + 16)
  }

  ghost predicate FormatLaws(c: Crypto) {
    && (forall b :: |c.digest(b)| == 32)
    && (forall h :: c.fromJson(c.toJson(h)) == Some(h))
    && (forall h :: |c.toJson(h)| >= 4)
  }

  // ----- key wraps

  function Field(b: Bytes): Bytes { LeBytes(|b|, 8) + b }

  /** The associated data of the password wrap binds profile, salt and cost; the constant context label is left out. */
  function PasswordAad(h: Header): Bytes {
    h.profile + h.salt + LeBytes(h.memoryKib, 4) + LeBytes(h.iterations, 4)
  }

  function PasskeyAad(profile: Bytes, credential: Bytes, rp: Bytes, salt: Bytes): Bytes {
    Field(profile) + Field(credential) + Field(rp) + salt
  }

  predicate GoodPassphrase(pass: Bytes) { 0 < |pass| <= 4096 }

  function Wrap(c: Crypto, kek: Bytes, secret: Bytes, aad: Bytes, nonce: Bytes): Wrapped {
    Wrapped(nonce, c.seal(kek, nonce, aad, secret))
  }

  function Unwrap(c: Crypto, kek: Bytes, w: Wrapped, aad: Bytes): Option<Bytes> {
    var secret := c.open(kek, w.nonce, aad, w.ciphertext);
    if secret.Some? && |secret.value| == 32 then secret else None
  }

  function UnwrapPassword(c: Crypto, h: Header, pass: Bytes): Option<Bytes> {
    Unwrap(c, c.passwordKey(pass, h.salt), h.password, PasswordAad(h))
  }

  function UnwrapPasskey(c: Crypto, h: Header, entry: Passkey, prf: Bytes): Option<Bytes> {
    Unwrap(c, c.passkeyKey(h.profile, entry.credential, entry.salt, prf), entry.wrapped,
           PasskeyAad(h.profile, entry.credential, entry.rp, entry.salt))
  }

  // ----- creating and changing a vault

  /** `char::is_control` on UTF-8: C0, DEL, and C1 behind its lead byte. */
  predicate HasControl(name: Bytes) {
    exists i :: 0 <= i < |name| &&
      (name[i] < 0x20 || name[i] == 0x7F || (i + 1 < |name| && name[i] == 0xC2 && 0x80 <= name[i + 1] <= 0x9F))
  }

  function Create(c: Crypto, profile: Bytes, pass: Bytes, salt: Bytes, key: Bytes, nonce: Bytes): Result<Vault, Error> {
    if profile == [] || |profile| > 128 || HasControl(profile) then Err(BadProfileName)
    else if !GoodPassphrase(pass) then Err(BadPassphrase)
    else
      var h := Header(1, profile, 65536, 3, salt, Wrapped(nonce, []), []);
      Ok(Vault(h.(password := Wrap(c, c.passwordKey(pass, salt), key, PasswordAad(h), nonce)), key, 0))
  }

  predicate PasswordFits(c: Crypto, v: Vault, pass: Bytes) {
    GoodPassphrase(pass) && UnwrapPassword(c, v.header, pass) == Some(v.key)
  }

  function PasswordError(c: Crypto, v: Vault, pass: Bytes): Error {
    if !GoodPassphrase(pass) then BadPassphrase else WrongCredentials
  }

  function ChangePassword(c: Crypto, v: Vault, was: Bytes, pass: Bytes, salt: Bytes, nonce: Bytes): Result<Vault, Error> {
    if !PasswordFits(c, v, was) then Err(PasswordError(c, v, was))
    else if !GoodPassphrase(pass) then Err(BadPassphrase)
    else
      var h := v.header.(salt := salt);
      Ok(v.(header := h.(password := Wrap(c, c.passwordKey(pass, salt), v.key, PasswordAad(h), nonce))))
  }

  predicate Enrolled(h: Header, credential: Bytes) { exists i :: 0 <= i < |h.passkeys| && h.passkeys[i].credential == credential }

  function EnrollPasskey(c: Crypto, v: Vault, credential: Bytes, rp: Bytes, salt: Bytes, prf: Bytes, nonce: Bytes)
    : Result<Vault, Error>
  {
    var h := v.header;
    if |h.passkeys| >= 8 || rp == [] || |rp| > 253 || Enrolled(h, credential) then Err(BadPasskey)
    else if |prf| != 32 || credential == [] || |credential| > 1024 then Err(BadPrf)
    else
      var kek := c.passkeyKey(h.profile, credential, salt, prf);
      var wrapped := Wrap(c, kek, v.key, PasskeyAad(h.profile, credential, rp, salt), nonce);
      Ok(v.(header := h.(passkeys := h.passkeys + [Passkey(credential, rp, salt, wrapped)])))
  }

  function Committed(v: Vault, generation: nat): Result<Vault, Error> {
    if v.generation + 1 < TWO64 && v.generation + 1 == generation then Ok(v.(generation := generation)) else Err(CommitOrder)
  }

  // ----- records

  /** Everything in front of the ciphertext; it is also the associated data. */
  function Front(generation: nat, json: Bytes, nonce: Bytes, cipherLength: nat): Bytes {
    MAGIC + LeBytes(generation, 8) + LeBytes(|json|, 4) + json + nonce + LeBytes(cipherLength, 4)
  }

  function SealNext(c: Crypto, v: Vault, plaintext: Bytes, nonce: Bytes): Result<(nat, Bytes), Error> {
    var json := c.toJson(v.header);
    if |plaintext| > MAX_RECORD - MAX_HEADER - 128 then Err(StorageLimit)
    else if v.generation + 1 >= TWO64 then Err(GenerationOverflow)
    else if |json| > MAX_HEADER then Err(HeaderLimit)
    else
      var aad := Front(v.generation + 1, json, nonce, |plaintext| + 16);
      var body := aad + c.seal(v.key, nonce, aad, plaintext);
      Ok((v.generation + 1, body + c.digest(body)))
  }

  predicate PasskeyRules(p: Passkey) {
    0 < |p.credential| <= 1024 && 0 < |p.rp| <= 253 && |p.wrapped.ciphertext| == 48
  }

  /** What the parser demands of a header. */
  predicate HeaderRules(h: Header) {
    && h.version == 1 && h.memoryKib == 65536 && h.iterations == 3
    && 0 < |h.profile| <= 128 && |h.password.ciphertext| == 48
    && |h.passkeys| <= 8 && (forall i :: 0 <= i < |h.passkeys| ==> PasskeyRules(h.passkeys[i]))
  }

  /** The fixed fields, once magic and checksum have been checked. */
  function ParseFields(c: Crypto, bytes: Bytes, end: nat): Result<Record, Error>
    requires 68 <= end <= |bytes|
  {
    var generation, headerLength := LeValue(bytes[8..16]), LeValue(bytes[16..20]);
    if generation == 0 || headerLength > MAX_HEADER || 20 + headerLength + 28 > end then Err(BadHeaderSize)
    else
      var at := 20 + headerLength;
      var header := c.fromJson(bytes[20..at]);
      if header.None? then Err(BadHeader)
      else if !HeaderRules(header.value) then Err(BadParameters)
      else
        var cipherLength := LeValue(bytes[at + 24..at + 28]);
        if cipherLength < 16 || at + 28 + cipherLength != end then Err(BadPayloadSize)
        else Ok(Record(header.value, generation, bytes[..at + 28], bytes[at..at + 24], bytes[at + 28..end]))
  }

  function Parse(c: Crypto, bytes: Bytes): Result<Record, Error> {
    if |bytes| < 100 || |bytes| > MAX_RECORD || bytes[..8] != MAGIC then Err(BadRecord)
    else
      var end := |bytes| - 32;
      if c.digest(bytes[..end]) != bytes[end..] then Err(TornRecord) else ParseFields(c, bytes, end)
  }

  function OpenRecord(c: Crypto, key: Bytes, r: Record): Result<(Vault, Bytes), Error> {
    var plaintext := c.open(key, r.nonce, r.aad, r.ciphertext);
    if plaintext.None? then Err(AuthenticationFailed) else Ok((Vault(r.header, key, r.generation), plaintext.value))
  }

  function OpenPassword(c: Crypto, profile: Bytes, pass: Bytes, bytes: Bytes): Result<(Vault, Bytes), Error> {
    var r := Parse(c, bytes);
    if r.Err? then Err(r.error)
    else if r.value.header.profile != profile then Err(ProfileMismatch)
    else if !GoodPassphrase(pass) then Err(BadPassphrase)
    else
      var key := UnwrapPassword(c, r.value.header, pass);
      if key.None? then Err(WrongCredentials) else OpenRecord(c, key.value, r.value)
  }

  function FindPasskey(entries: seq<Passkey>, credential: Bytes): Option<Passkey> {
    if entries == [] then None
    else if entries[0].credential == credential then Some(entries[0])
    else FindPasskey(entries[1..], credential)
  }

  function OpenPasskey(c: Crypto, profile: Bytes, credential: Bytes, prf: Bytes, bytes: Bytes): Result<(Vault, Bytes), Error> {
    var r := Parse(c, bytes);
    if r.Err? then Err(r.error)
    else if r.value.header.profile != profile then Err(ProfileMismatch)
    else
      var entry := FindPasskey(r.value.header.passkeys, credential);
      if entry.None? then Err(NotEnrolled)
      else if |prf| != 32 || credential == [] || |credential| > 1024 then Err(BadPrf)
      else
        var key := UnwrapPasskey(c, r.value.header, entry.value, prf);
        if key.None? then Err(WrongCredentials) else OpenRecord(c, key.value, r.value)
  }

  // ----- what stays true of a vault

  /** `prfs` lists, for each enrolled passkey, the PRF output it was enrolled with. */
  ghost predicate Sound(c: Crypto, v: Vault, pass: Bytes, prfs: seq<Bytes>) {
    && HeaderRules(v.header) && |v.key| == 32 && v.generation < TWO64
    && PasswordFits(c, v, pass)
    && |prfs| == |v.header.passkeys|
    && (forall i :: 0 <= i < |prfs| ==>
          |prfs[i]| == 32 && UnwrapPasskey(c, v.header, v.header.passkeys[i], prfs[i]) == Some(v.key))
    && (forall i, j :: 0 <= i < j < |v.header.passkeys| ==> v.header.passkeys[i].credential != v.header.passkeys[j].credential)
  }

  lemma UnwrapWrap(c: Crypto, kek: Bytes, secret: Bytes, aad: Bytes, nonce: Bytes)
    requires CipherLaws(c) && |secret| == 32
    ensures var w := Wrap(c, kek, secret, aad, nonce); Unwrap(c, kek, w, aad) == Some(secret) && |w.ciphertext| == 48
  {
  }

  lemma CreateSound(c: Crypto, profile: Bytes, pass: Bytes, salt: Bytes, key: Bytes, nonce: Bytes)
    requires CipherLaws(c) && |key| == 32
    requires Create(c, profile, pass, salt, key, nonce).Ok?
    ensures Sound(c, Create(c, profile, pass, salt, key, nonce).value, pass, [])
  {
    var v := Create(c, profile, pass, salt, key, nonce).value;
    UnwrapWrap(c, c.passwordKey(pass, salt), key, PasswordAad(v.header), nonce);
  }

  /** Changing the password keeps every passkey working and makes the new password the one that fits. */
  lemma ChangePasswordSound(c: Crypto, v: Vault, was: Bytes, pass: Bytes, salt: Bytes, nonce: Bytes, prfs: seq<Bytes>)
    requires CipherLaws(c) && Sound(c, v, was, prfs)
    ensures var r := ChangePassword(c, v, was, pass, salt, nonce);
            && (r.Ok? <==> GoodPassphrase(pass))
            && (r.Ok? ==> Sound(c, r.value, pass, prfs) && r.value.key == v.key && r.value.generation == v.generation)
  {
    var r := ChangePassword(c, v, was, pass, salt, nonce);
    if r.Ok? {
      UnwrapWrap(c, c.passwordKey(pass, salt), v.key, PasswordAad(r.value.header), nonce);
      assert forall i :: 0 <= i < |prfs| ==>
        UnwrapPasskey(c, r.value.header, r.value.header.passkeys[i], prfs[i]) == UnwrapPasskey(c, v.header, v.header.passkeys[i], prfs[i]);
    }
  }

  lemma EnrollSound(c: Crypto, v: Vault, pass: Bytes, prfs: seq<Bytes>,
                    credential: Bytes, rp: Bytes, salt: Bytes, prf: Bytes, nonce: Bytes)
    requires CipherLaws(c) && Sound(c, v, pass, prfs)
    ensures var r := EnrollPasskey(c, v, credential, rp, salt, prf, nonce);
            r.Ok? ==> Sound(c, r.value, pass, prfs + [prf]) && r.value.key == v.key && r.value.generation == v.generation
  {
    var r := EnrollPasskey(c, v, credential, rp, salt, prf, nonce);
    if r.Ok? {
      var h, g := v.header, r.value.header;
      UnwrapWrap(c, c.passkeyKey(h.profile, credential, salt, prf), v.key, PasskeyAad(h.profile, credential, rp, salt), nonce);
      assert UnwrapPassword(c, g, pass) == UnwrapPassword(c, h, pass);
      assert forall i :: 0 <= i < |h.passkeys| ==> g.passkeys[i] == h.passkeys[i];
      assert forall i :: 0 <= i < |prfs| ==> UnwrapPasskey(c, g, g.passkeys[i], prfs[i]) == UnwrapPasskey(c, h, h.passkeys[i], prfs[i]);
    }
  }

  // ----- the printer and the parser undo each other

  /** The bytes of a sealed record, field by field. */
  lemma FieldsOfSealed(json: Bytes, generation: nat, nonce: Bytes, cipher: Bytes, sum: Bytes)
    requires |nonce| == 24
    ensures var front := Front(generation, json, nonce, |cipher|);
            var s, at := front + cipher + sum, 20 + |json|;
            && |front| == at + 28 && |s| == at + 28 + |cipher| + |sum|
            && s[..8] == MAGIC && s[8..16] == LeBytes(generation, 8) && s[16..20] == LeBytes(|json|, 4) && s[20..at] == json
            && s[at..at + 24] == nonce && s[at + 24..at + 28] == LeBytes(|cipher|, 4) && s[..at + 28] == front
            && s[at + 28..at + 28 + |cipher|] == cipher && s[..at + 28 + |cipher|] == front + cipher
            && s[at + 28 + |cipher|..] == sum
  {
    var g, n, l := LeBytes(generation, 8), LeBytes(|json|, 4), LeBytes(|cipher|, 4);
    var p1 := MAGIC + g;
    var p2 := p1 + n;
    var p3 := p2 + json;
    var p4 := p3 + nonce;
    var front := p4 + l;
    var body := front + cipher;
    var s := body + sum;
    Halves(body, sum);
    hide LeBytes;
    Within(front, cipher, s);
    Within(p4, l, s);
    Within(p3, nonce, s);
    Within(p2, json, s);
    Within(p1, n, s);
    Within(MAGIC, g, s);
  }

  /** The parser on bytes whose fields are known. */
  lemma FieldsParse(c: Crypto, s: Bytes, header: Header, generation: nat, at: nat, end: nat)
    requires 24 <= at <= 20 + MAX_HEADER && at + 44 <= end && |s| == end + 32 <= MAX_RECORD && 0 < generation
    requires s[..8] == MAGIC && LeValue(s[8..16]) == generation && LeValue(s[16..20]) == at - 20
    requires LeValue(s[at + 24..at + 28]) == end - (at + 28)
    requires c.fromJson(s[20..at]) == Some(header) && HeaderRules(header) && c.digest(s[..end]) == s[end..]
    ensures Parse(c, s) == Ok(Record(header, generation, s[..at + 28], s[at..at + 24], s[at + 28..end]))
  {
    hide LeValue, HeaderRules, MAGIC;
  }

  /** Every record the vault seals is within the record limit and parses to the header, generation, nonce, associated
      data and ciphertext it was made from. */
  lemma SealedParses(c: Crypto, v: Vault, plaintext: Bytes, nonce: Bytes)
    requires CipherLaws(c) && FormatLaws(c) && HeaderRules(v.header) && |nonce| == 24
    requires SealNext(c, v, plaintext, nonce).Ok?
    ensures var (generation, bytes) := SealNext(c, v, plaintext, nonce).value;
            var aad := Front(v.generation + 1, c.toJson(v.header), nonce, |plaintext| + 16);
            && generation == v.generation + 1 && |bytes| <= MAX_RECORD
            && Parse(c, bytes) == Ok(Record(v.header, generation, aad, nonce, c.seal(v.key, nonce, aad, plaintext)))
  {
    hide MAGIC, HeaderRules, LeBytes, LeValue, Front, Parse, Pow256;
    var json, generation := c.toJson(v.header), v.generation + 1;
    var aad := Front(generation, json, nonce, |plaintext| + 16);
    var cipher := c.seal(v.key, nonce, aad, plaintext);
    var sum := c.digest(aad + cipher);
    Pow256Values();
    LeRoundTrip(generation, 8);
    LeRoundTrip(|json|, 4);
    LeRoundTrip(|cipher|, 4);
    FieldsOfSealed(json, generation, nonce, cipher, sum);
    var at := 20 + |json|;
    FieldsParse(c, aad + cipher + sum, v.header, generation, at, at + 28 + |cipher|);
  }

  lemma FindPasskeyAt(entries: seq<Passkey>, k: nat)
    requires k < |entries|
    requires forall i, j :: 0 <= i < j < |entries| ==> entries[i].credential != entries[j].credential
    ensures FindPasskey(entries, entries[k].credential) == Some(entries[k])
  {
    if k > 0 { FindPasskeyAt(entries[1..], k - 1); }
  }

  lemma {:induction false} FindNone(entries: seq<Passkey>, credential: Bytes)
    requires forall i :: 0 <= i < |entries| ==> entries[i].credential != credential
    ensures FindPasskey(entries, credential) == None
  {
    if entries != [] {
      assert forall i :: 0 <= i < |entries[1..]| ==> entries[1..][i] == entries[i + 1];
      FindNone(entries[1..], credential);
    }
  }

  /** A sealed record opens, under the current password and under every enrolled passkey, to the vault one generation
      later and to the text that was sealed; under any other profile name it does not open. */
  lemma SealedOpens(c: Crypto, v: Vault, pass: Bytes, prfs: seq<Bytes>, plaintext: Bytes, nonce: Bytes)
    requires CipherLaws(c) && FormatLaws(c) && Sound(c, v, pass, prfs) && |nonce| == 24
    requires SealNext(c, v, plaintext, nonce).Ok?
    ensures var bytes := SealNext(c, v, plaintext, nonce).value.1;
            var next := v.(generation := v.generation + 1);
            && Committed(v, v.generation + 1) == Ok(next)
            && OpenPassword(c, v.header.profile, pass, bytes) == Ok((next, plaintext))
            && (forall k :: 0 <= k < |prfs| ==>
                  OpenPasskey(c, v.header.profile, v.header.passkeys[k].credential, prfs[k], bytes) == Ok((next, plaintext)))
            && (forall profile, p :: profile != v.header.profile ==> OpenPassword(c, profile, p, bytes).Err?)
            && (forall profile, id, prf :: profile != v.header.profile ==> OpenPasskey(c, profile, id, prf, bytes).Err?)
            && (forall id, prf :: !Enrolled(v.header, id) ==> OpenPasskey(c, v.header.profile, id, prf, bytes) == Err(NotEnrolled))
  {
    SealedParses(c, v, plaintext, nonce);
    var bytes := SealNext(c, v, plaintext, nonce).value.1;
    hide Parse, SealNext, Front;
    forall k | 0 <= k < |prfs|
      ensures OpenPasskey(c, v.header.profile, v.header.passkeys[k].credential, prfs[k], bytes)
              == Ok((v.(generation := v.generation + 1), plaintext))
    {
      FindPasskeyAt(v.header.passkeys, k);
      assert PasskeyRules(v.header.passkeys[k]);
    }
    forall id | !Enrolled(v.header, id) ensures FindPasskey(v.header.passkeys, id) == None { FindNone(v.header.passkeys, id); }
  }

  /** The parsed length fields fix the record's length, so two records that agree on the front have the same length. */
  lemma ParsedLength(c: Crypto, bytes: Bytes)
    requires Parse(c, bytes).Ok?
    ensures |bytes| >= 100
    ensures var at := 20 + LeValue(bytes[16..20]);
            at + 60 <= |bytes| && |bytes| == at + 60 + LeValue(bytes[at + 24..at + 28])
  {
  }

  /** A write cut short never passes for a record, whatever the digest says: the length fields give it away. */
  lemma TornNeverParses(c: Crypto, bytes: Bytes, torn: Bytes)
    requires Parse(c, bytes).Ok? && torn <= bytes && torn != bytes
    ensures Parse(c, torn).Err?
  {
    if Parse(c, torn).Ok? {
      ParsedLength(c, bytes);
      ParsedLength(c, torn);
      PrefixSlice(torn, bytes, 16, 20);
      var at := 20 + LeValue(torn[16..20]);
      PrefixSlice(torn, bytes, at + 24, at + 28);
    }
  }

  // ----- the newest complete record

  /** One stored slot; the wrapper keeps a list of slots from being a list of lists. */
  datatype Slot = Slot(bytes: Bytes)

  /** `max_by_key` over the slots that parse: among equals the last one wins. */
  function Newest(c: Crypto, slots: seq<Slot>): Result<Bytes, Error> {
    if slots == [] then Err(NoRecord)
    else
      var front, last := Newest(c, slots[..|slots| - 1]), slots[|slots| - 1].bytes;
      var r := Parse(c, last);
      if r.Err? then front
      else if front.Err? || Generation(c, front.value) <= r.value.generation then Ok(last)
      else front
  }

  function Generation(c: Crypto, bytes: Bytes): nat {
    var r := Parse(c, bytes);
    if r.Ok? then r.value.generation else 0
  }

  /** The choice is a stored record that parses, of the highest generation, and it exists when any slot parses. */
  lemma {:induction false} NewestIsNewest(c: Crypto, slots: seq<Slot>)
    ensures Newest(c, slots).Err? <==> forall i :: 0 <= i < |slots| ==> Parse(c, slots[i].bytes).Err?
    ensures Newest(c, slots).Ok? ==>
              var best := Newest(c, slots).value;
              && Slot(best) in slots && Parse(c, best).Ok?
              && (forall i :: 0 <= i < |slots| && Parse(c, slots[i].bytes).Ok? ==> Generation(c, slots[i].bytes) <= Generation(c, best))
  {
    hide Parse;
    if slots != [] {
      var front, last := slots[..|slots| - 1], slots[|slots| - 1];
      NewestIsNewest(c, front);
      assert last in slots && last == Slot(last.bytes);
      assert forall i :: 0 <= i < |slots| ==> slots[i] == if i < |front| then front[i] else last;
    }
  }

  // ----- when an operation succeeds

  /** No byte below the space, no DEL, no C1 control behind its lead byte. */
  predicate Printable(name: Bytes) {
    forall i :: 0 <= i < |name| ==>
      name[i] >= 32 && name[i] != 127 && (name[i] == 0xC2 && i + 1 < |name| ==> !(128 <= name[i + 1] <= 159))
  }

  lemma CreateExactly(c: Crypto, profile: Bytes, pass: Bytes, salt: Bytes, key: Bytes, nonce: Bytes)
    ensures Create(c, profile, pass, salt, key, nonce).Ok? <==>
            1 <= |profile| <= 128 && Printable(profile) && 1 <= |pass| <= 4096
    ensures Create(c, profile, pass, salt, key, nonce).Ok? ==>
              var v := Create(c, profile, pass, salt, key, nonce).value;
              v.header.profile == profile && v.key == key && v.generation == 0 && v.header.passkeys == []
  {
  }

  /** The password changes if and only if the old one is legal and unwraps the vault's key, and the new one is legal. */
  lemma ChangePasswordExactly(c: Crypto, v: Vault, was: Bytes, pass: Bytes, salt: Bytes, nonce: Bytes)
    ensures ChangePassword(c, v, was, pass, salt, nonce).Ok? <==>
            && 1 <= |was| <= 4096 && 1 <= |pass| <= 4096
            && Unwrap(c, c.passwordKey(was, v.header.salt), v.header.password, PasswordAad(v.header)) == Some(v.key)
    ensures ChangePassword(c, v, was, pass, salt, nonce).Ok? ==>
              var w := ChangePassword(c, v, was, pass, salt, nonce).value;
              && w.key == v.key && w.generation == v.generation && w.header.profile == v.header.profile
              && w.header.passkeys == v.header.passkeys && w.header.salt == salt
  {
    hide Unwrap, PasswordAad;
  }

  /** A passkey is added if and only if there is room, its names and its PRF output are in bounds, and it is new. */
  lemma EnrollExactly(c: Crypto, v: Vault, credential: Bytes, rp: Bytes, salt: Bytes, prf: Bytes, nonce: Bytes)
    ensures EnrollPasskey(c, v, credential, rp, salt, prf, nonce).Ok? <==>
            && |v.header.passkeys| < 8 && 1 <= |rp| <= 253 && 1 <= |credential| <= 1024 && |prf| == 32
            && (forall i :: 0 <= i < |v.header.passkeys| ==> v.header.passkeys[i].credential != credential)
    ensures EnrollPasskey(c, v, credential, rp, salt, prf, nonce).Ok? ==>
              var w := EnrollPasskey(c, v, credential, rp, salt, prf, nonce).value;
              var n := |v.header.passkeys|;
              && w.key == v.key && w.generation == v.generation && w.header.profile == v.header.profile
              && w.header.password == v.header.password && w.header.salt == v.header.salt
              && |w.header.passkeys| == n + 1 && w.header.passkeys[..n] == v.header.passkeys
              && w.header.passkeys[n].credential == credential && w.header.passkeys[n].rp == rp && w.header.passkeys[n].salt == salt
  {
    hide PasskeyAad;
  }

  lemma CommittedExactly(v: Vault, generation: nat)
    ensures Committed(v, generation).Ok? <==> generation == v.generation + 1 && generation < TWO64
    ensures Committed(v, generation).Ok? ==>
              var w := Committed(v, generation).value; w.generation == generation && w.header == v.header && w.key == v.key
  {
  }

  /** A record is sealed if and only if text and header are within bounds and the counter has a next value. */
  lemma SealsExactly(c: Crypto, v: Vault, plaintext: Bytes, nonce: Bytes)
    ensures SealNext(c, v, plaintext, nonce).Ok? <==>
            |plaintext| <= 16 * 1024 * 1024 - 32 * 1024 - 128 && v.generation + 1 < 0x1_0000_0000_0000_0000 && |c.toJson(v.header)| <= 32 * 1024
  {
    hide Front;
  }

  /** A record opens with a password if and only if it parses, is of this profile, the password is legal, the key derived from it
      unwraps 32 bytes, and these open the text. */
  lemma PasswordOpensExactly(c: Crypto, profile: Bytes, pass: Bytes, bytes: Bytes, v: Vault, text: Bytes)
    ensures OpenPassword(c, profile, pass, bytes) == Ok((v, text)) <==>
            && Parse(c, bytes).Ok? && 1 <= |pass| <= 4096 && |v.key| == 32
            && var r := Parse(c, bytes).value;
            && r.header.profile == profile && v.header == r.header && v.generation == r.generation
            && c.open(c.passwordKey(pass, r.header.salt), r.header.password.nonce, PasswordAad(r.header), r.header.password.ciphertext) == Some(v.key)
            && c.open(v.key, r.nonce, r.aad, r.ciphertext) == Some(text)
  {
    hide Parse, PasswordAad;
  }

  /** And with a passkey if and only if the first entry of its credential does the same for its 32 bytes of PRF output. */
  lemma PasskeyOpensExactly(c: Crypto, profile: Bytes, credential: Bytes, prf: Bytes, bytes: Bytes, v: Vault, text: Bytes)
    ensures OpenPasskey(c, profile, credential, prf, bytes) == Ok((v, text)) <==>
            && Parse(c, bytes).Ok? && |prf| == 32 && 1 <= |credential| <= 1024 && |v.key| == 32
            && var r := Parse(c, bytes).value;
            && r.header.profile == profile && v.header == r.header && v.generation == r.generation
            && FindPasskey(r.header.passkeys, credential).Some?
            && var p := FindPasskey(r.header.passkeys, credential).value;
            && c.open(c.passkeyKey(profile, p.credential, p.salt, prf), p.wrapped.nonce,
                      PasskeyAad(profile, p.credential, p.rp, p.salt), p.wrapped.ciphertext) == Some(v.key)
            && c.open(v.key, r.nonce, r.aad, r.ciphertext) == Some(text)
  {
    hide Parse, PasskeyAad, FindPasskey;
  }

  // ----- with a cipher that cannot be forged

  /** What was sealed with `k` beside `a` is no forgery of something else beside `a'`. */
  predicate Unforged(c: Crypto, k: Bytes, n: Bytes, a: Bytes, m: Bytes, k': Bytes, a': Bytes) {
    k != k' || a != a' ==> c.open(k', n, a', c.seal(k, n, a, m)) == None
  }

  /** Only a password that derives the same key fits: a changed one does not fit any more. */
  lemma OnlyItsPassword(c: Crypto, v: Vault, was: Bytes, pass: Bytes, salt: Bytes, nonce: Bytes, other: Bytes)
    requires ChangePassword(c, v, was, pass, salt, nonce).Ok?
    requires var aad := PasswordAad(v.header.(salt := salt));
             Unforged(c, c.passwordKey(pass, salt), nonce, aad, v.key, c.passwordKey(other, salt), aad)
    requires c.passwordKey(other, salt) != c.passwordKey(pass, salt)
    ensures !PasswordFits(c, ChangePassword(c, v, was, pass, salt, nonce).value, other)
  {
    assert PasswordAad(ChangePassword(c, v, was, pass, salt, nonce).value.header) == PasswordAad(v.header.(salt := salt));
    hide PasswordAad;
  }

  /** Nor does the right one fit a header whose name, salt or cost was exchanged. */
  lemma HeaderBinds(c: Crypto, h: Header, kek: Bytes, key: Bytes, nonce: Bytes, other: Header)
    requires Unforged(c, kek, nonce, PasswordAad(h), key, kek, PasswordAad(other)) && h.password == Wrap(c, kek, key, PasswordAad(h), nonce) && other.password == h.password
    requires |h.salt| == |other.salt| && h.memoryKib < TWO32 && h.iterations < TWO32 && other.memoryKib < TWO32 && other.iterations < TWO32
    requires (other.profile, other.salt, other.memoryKib, other.iterations) != (h.profile, h.salt, h.memoryKib, h.iterations)
    ensures Unwrap(c, kek, other.password, PasswordAad(other)) == None
  {
    if PasswordAad(h) == PasswordAad(other) {
      var m, i, m', i' := LeBytes(h.memoryKib, 4), LeBytes(h.iterations, 4), LeBytes(other.memoryKib, 4), LeBytes(other.iterations, 4);
      Pow256Values();
      LeRoundTrip(h.memoryKib, 4);
      LeRoundTrip(h.iterations, 4);
      LeRoundTrip(other.memoryKib, 4);
      LeRoundTrip(other.iterations, 4);
      hide LeBytes, LeValue;
      TailsEqual(h.profile + h.salt + m, i, other.profile + other.salt + m', i');
      TailsEqual(h.profile + h.salt, m, other.profile + other.salt, m');
      TailsEqual(h.profile, h.salt, other.profile, other.salt);
    }
  }

  /** Sized fields are told apart wherever they stand. */
  lemma FieldsDiffer(a: Bytes, b: Bytes, rest: Bytes, rest': Bytes)
    requires Field(a) + rest == Field(b) + rest' && |a| < TWO64 && |b| < TWO64
    ensures a == b && rest == rest'
  {
    hide LeBytes, LeValue, Pow256;
    Pow256Values();
    LeRoundTrip(|a|, 8);
    LeRoundTrip(|b|, 8);
    var m, n := LeBytes(|a|, 8), LeBytes(|b|, 8);
    Assoc(m, a, rest);
    Assoc(n, b, rest');
    Halves(m, a + rest);
    Halves(n, b + rest');
    Halves(a, rest);
    Halves(b, rest');
  }

  /** A passkey's wrap opens for no other profile, credential, relying party or salt. */
  lemma PasskeyBinds(c: Crypto, kek: Bytes, key: Bytes, nonce: Bytes, profile: Bytes, credential: Bytes, rp: Bytes, salt: Bytes,
                     profile': Bytes, credential': Bytes, rp': Bytes, salt': Bytes)
    requires Unforged(c, kek, nonce, PasskeyAad(profile, credential, rp, salt), key, kek, PasskeyAad(profile', credential', rp', salt'))
    requires |profile| < TWO64 && |credential| < TWO64 && |rp| < TWO64 && |profile'| < TWO64 && |credential'| < TWO64 && |rp'| < TWO64
    requires (profile', credential', rp', salt') != (profile, credential, rp, salt)
    ensures Unwrap(c, kek, Wrap(c, kek, key, PasskeyAad(profile, credential, rp, salt), nonce), PasskeyAad(profile', credential', rp', salt')) == None
  {
    hide Field;
    if PasskeyAad(profile, credential, rp, salt) == PasskeyAad(profile', credential', rp', salt') {
      var (p, k, r) := (Field(profile), Field(credential), Field(rp));
      var (p', k', r') := (Field(profile'), Field(credential'), Field(rp'));
      Assoc(p + k, r, salt);
      Assoc(p, k, r + salt);
      Assoc(p' + k', r', salt');
      Assoc(p', k', r' + salt');
      FieldsDiffer(profile, profile', k + (r + salt), k' + (r' + salt'));
      FieldsDiffer(credential, credential', r + salt, r' + salt');
      FieldsDiffer(rp, rp', salt, salt');
    }
  }

  lemma TailsEqual(a: Bytes, b: Bytes, c: Bytes, d: Bytes)
    requires a + b == c + d && |b| == |d|
    ensures a == c && b == d
  {
    Halves(a, b);
    Halves(c, d);
  }

  /** A record whose front was altered in any byte does not open: header, generation, nonce and length are authenticated. */
  lemma FrontBinds(c: Crypto, v: Vault, plaintext: Bytes, nonce: Bytes, r: Record)
    requires var aad := Front(v.generation + 1, c.toJson(v.header), nonce, |plaintext| + 16);
             && (forall key :: Unforged(c, v.key, nonce, aad, plaintext, key, r.aad))
             && r.nonce == nonce && r.ciphertext == c.seal(v.key, nonce, aad, plaintext) && r.aad != aad
    ensures forall key :: OpenRecord(c, key, r).Err?
  {
    var aad := Front(v.generation + 1, c.toJson(v.header), nonce, |plaintext| + 16);
    hide Front;
    forall key ensures OpenRecord(c, key, r).Err? { assert Unforged(c, v.key, nonce, aad, plaintext, key, r.aad); }
  }

  // ----- the parser accepts nothing else

  /** Version 1, 64 MiB and three passes, a name of 1 to 128 bytes, a wrapped key of 48, at most eight passkeys within bounds. */
  predicate InBounds(h: Header) {
    && h.version == 1 && h.memoryKib == 65536 && h.iterations == 3 && 1 <= |h.profile| && |h.profile| <= 128
    && |h.password.ciphertext| == 48 && |h.passkeys| <= 8
    && forall p :: p in h.passkeys ==>
         1 <= |p.credential| && |p.credential| <= 1024 && 1 <= |p.rp| && |p.rp| <= 253 && |p.wrapped.ciphertext| == 48
  }

  lemma RulesAreBounds(h: Header)
    ensures HeaderRules(h) <==> InBounds(h)
  {
    if HeaderRules(h) {
      forall p | p in h.passkeys ensures PasskeyRules(p) { var i :| 0 <= i < |h.passkeys| && h.passkeys[i] == p; }
    }
    if InBounds(h) {
      forall i | 0 <= i < |h.passkeys| ensures PasskeyRules(h.passkeys[i]) { assert h.passkeys[i] in h.passkeys; }
    }
  }

  /** Every record that parses is its own fields printed: magic, generation, a header that reads and keeps the rules, nonce,
      ciphertext, and the digest of all that. */
  lemma ParsedPrints(c: Crypto, bytes: Bytes)
    requires Parse(c, bytes).Ok?
    ensures var r := Parse(c, bytes).value;
            && 1 <= r.generation && |r.nonce| == 24 && 16 <= |r.ciphertext| && |bytes| <= 16 * 1024 * 1024
            && exists json: Bytes ::
                 && |json| <= 32 * 1024 && c.fromJson(json) == Some(r.header) && InBounds(r.header)
                 && r.aad == Front(r.generation, json, r.nonce, |r.ciphertext|)
                 && bytes == r.aad + r.ciphertext + c.digest(r.aad + r.ciphertext)
  {
    hide LeValue, LeBytes, HeaderRules, InBounds;
    var end := |bytes| - 32;
    var r := Parse(c, bytes).value;
    var at := 20 + LeValue(bytes[16..20]);
    var json := bytes[20..at];
    LeCanonical(bytes[8..16]);
    LeCanonical(bytes[16..20]);
    LeCanonical(bytes[at + 24..at + 28]);
    RulesAreBounds(r.header);
    Pieces(bytes, at, end);
    assert r.aad == Front(r.generation, json, r.nonce, |r.ciphertext|);
  }

  lemma Pieces(b: Bytes, at: nat, end: nat)
    requires 20 <= at && at + 28 <= end <= |b|
    ensures b[..at + 28] == b[..8] + b[8..16] + b[16..20] + b[20..at] + b[at..at + 24] + b[at + 24..at + 28]
    ensures b[..end] == b[..at + 28] + b[at + 28..end] && b == b[..end] + b[end..]
  {
    Joins(b, 8, 16);
    Joins(b, 16, 20);
    Joins(b, 20, at);
    Joins(b, at, at + 24);
    Joins(b, at + 24, at + 28);
    Joins(b, at + 28, end);
  }

  lemma Joins(b: Bytes, i: nat, j: nat)
    requires i <= j <= |b|
    ensures b[..i] + b[i..j] == b[..j]
  {
  }

  // ----- the vault as the engine holds it

  class Cell {
    var header: Header
    var key: Bytes
    var generation: nat

    function Value(): Vault reads this { Vault(header, key, generation) }

    constructor (v: Vault)
      ensures Value() == v
    {
      header, key, generation := v.header, v.key, v.generation;
    }

    method Commit(next: nat) returns (r: Result<(), Error>)
      modifies this`generation
      ensures r == if Committed(old(Value()), next).Ok? then Ok(()) else Err(CommitOrder)
      ensures Value() == if r.Ok? then Committed(old(Value()), next).value else old(Value())
    {
      if generation + 1 >= TWO64 || generation + 1 != next { return Err(CommitOrder); }
      generation := next;
      return Ok(());
    }

    /** The header is rebuilt on a copy: a refused passphrase leaves the vault as it was. */
    method RotatePassword(c: Crypto, was: Bytes, pass: Bytes, salt: Bytes, nonce: Bytes) returns (r: Result<(), Error>)
      modifies this`header
      ensures var spec := ChangePassword(c, old(Value()), was, pass, salt, nonce);
              if spec.Ok? then r == Ok(()) && Value() == spec.value else r == Err(spec.error) && Value() == old(Value())
    {
      if !PasswordFits(c, Value(), was) { return Err(PasswordError(c, Value(), was)); }
      var h := header.(salt := salt);
      if !GoodPassphrase(pass) { return Err(BadPassphrase); }
      h := h.(password := Wrap(c, c.passwordKey(pass, salt), key, PasswordAad(h), nonce));
      header := h;
      return Ok(());
    }

    method AddPasskey(c: Crypto, credential: Bytes, rp: Bytes, salt: Bytes, prf: Bytes, nonce: Bytes) returns (r: Result<(), Error>)
      modifies this`header
      ensures var spec := EnrollPasskey(c, old(Value()), credential, rp, salt, prf, nonce);
              if spec.Ok? then r == Ok(()) && Value() == spec.value else r == Err(spec.error) && Value() == old(Value())
    {
      if |header.passkeys| >= 8 || rp == [] || |rp| > 253 { return Err(BadPasskey); }
      var i := 0;
      while i < |header.passkeys|
        invariant i <= |header.passkeys|
        invariant forall j :: 0 <= j < i ==> header.passkeys[j].credential != credential
      {
        if header.passkeys[i].credential == credential { return Err(BadPasskey); }
        i := i + 1;
      }
      if |prf| != 32 || credential == [] || |credential| > 1024 { return Err(BadPrf); }
      var kek := c.passkeyKey(header.profile, credential, salt, prf);
      var wrapped := Wrap(c, kek, key, PasskeyAad(header.profile, credential, rp, salt), nonce);
      header := header.(passkeys := header.passkeys + [Passkey(credential, rp, salt, wrapped)]);
      return Ok(());
    }
  }
}
