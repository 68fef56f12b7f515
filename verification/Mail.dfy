/** End-to-end mail in the relay network: a key for each direction of a pair and each day, a sealed letter, and the token
    that lets its reader delete it. */
module Mail {
  import opened Prelude
  import opened Wire
  import opened Sealing

  const MAIL_TTL_MS := 7 * DAY_MS

  /** A UTC day number, truncated to 32 bits. */
  function DayOf(now: U64): nat { (now / DAY_MS) % TWO32 }

  /** The secret two identities share; `None` for a public key of low order. */
  function PairSecret(c: Crypto, mySecret: Key, theirPublic: Key, mySign: Key, theirSign: Key): Option<Key> {
    var shared := c.dh(mySecret, theirPublic);
    if shared == seq(32, _ => 0) then None
    else
      var (lo, hi) := if Less(theirSign, mySign) then (theirSign, mySign) else (mySign, theirSign);
      Some(c.derive(PairLabel, shared + lo + hi))
  }

  function MailKey(c: Crypto, pair: Key, to: Key, day: nat): Key { c.mac(pair, to + LeBytes(day, 4)) }

  datatype Item = Item(key: Key, value: Bytes, deleteHash: Key, expires: U64)

  datatype Opened = Opened(envelope: Bytes, token: Key)

  function Plain(token: Key, envelope: Bytes): Bytes { token + PutBlob(envelope) }

  /** Bytes after the structure are ignored. */
  function OpenPlain(plain: Bytes): Option<Opened> {
    var token := ReadKey(plain);
    if token.None? then None
    else
      var envelope := ReadBlob(token.value.1);
      if envelope.None? then None else Some(Opened(envelope.value.0, token.value.0))
  }

  function DeleteHash(c: Crypto, token: Key): Key { c.digest(token) }

  function MailTo(c: Crypto, pair: Key, to: Key, now: U64, envelope: Bytes, token: Key, nonce: Bytes): Option<Item> {
    var key := MailKey(c, pair, to, DayOf(now));
    var value := Seal(c, pair, MailLabel, key, Plain(token, envelope), nonce);
    if value.None? then None else Some(Item(key, value.value, DeleteHash(c, token), (now + MAIL_TTL_MS) % TWO64))
  }

  function OpenMail(c: Crypto, pair: Key, key: Key, value: Bytes): Option<Opened> {
    var plain := Open(c, pair, MailLabel, key, value);
    if plain.None? then None else OpenPlain(plain.value)
  }

  /** The keys of today and the days before it, newest first; days before day zero are skipped. */
  function KeysFrom(c: Crypto, pair: Key, me: Key, today: nat, from: nat, days: nat): seq<Key>
    decreases days - from
  {
    if from >= days then []
    else (if from <= today then [MailKey(c, pair, me, today - from)] else []) + KeysFrom(c, pair, me, today, from + 1, days)
  }

  function KeysToPoll(c: Crypto, pair: Key, me: Key, now: U64, days: nat): seq<Key> {
    KeysFrom(c, pair, me, DayOf(now), 0, days)
  }

  // ----- both ends compute the same secret

  lemma PairIsSymmetric(c: Crypto, a: Key, b: Key, signA: Key, signB: Key)
    requires DhLaw(c)
    ensures PairSecret(c, a, c.public(b), signA, signB) == PairSecret(c, b, c.public(a), signB, signA)
  {
    LessTrichotomy(signA, signB);
  }

  // ----- the polled keys

  lemma {:induction false} KeysFromContents(c: Crypto, pair: Key, me: Key, today: nat, from: nat, days: nat, k: Key)
    ensures k in KeysFrom(c, pair, me, today, from, days) <==>
            exists day: nat :: today - days < day <= today - from && k == MailKey(c, pair, me, day)
    decreases days - from
  {
    hide MailKey;
    if from < days {
      KeysFromContents(c, pair, me, today, from + 1, days, k);
      if from <= today && k == MailKey(c, pair, me, today - from) {
        assert k in KeysFrom(c, pair, me, today, from, days);
      }
    }
  }

  /** The two times lie in the same block of 2^32 days. */
  predicate SameBlock(t: U64, later: U64) { (t / DAY_MS) / TWO32 == (later / DAY_MS) / TWO32 }

  lemma DaysApart(t: U64, later: U64, days: nat)
    requires days > 0 && t <= later <= t + (days - 1) * DAY_MS
    ensures t / DAY_MS <= later / DAY_MS <= t / DAY_MS + (days - 1)
  {
  }

  lemma BlockDays(x: nat, y: nat, days: nat)
    requires x <= y < x + days
    ensures x / TWO32 == y / TWO32 ==> x % TWO32 <= y % TWO32 && y % TWO32 - x % TWO32 == y - x
    ensures x / TWO32 != y / TWO32 && days <= TWO32 ==> y % TWO32 < x % TWO32
  {
  }

  /** Different days of one direction of a pair have different keys. */
  ghost predicate DaysDiffer(c: Crypto, pair: Key, to: Key) {
    forall d, e :: 0 <= d < TWO32 && 0 <= e < TWO32 && d != e ==> MailKey(c, pair, to, d) != MailKey(c, pair, to, e)
  }

  lemma PolledInBlock(c: Crypto, pair: Key, to: Key, t: U64, later: U64, days: nat)
    requires 0 < days < TWO32 && t <= later <= t + (days - 1) * DAY_MS && SameBlock(t, later)
    ensures MailKey(c, pair, to, DayOf(t)) in KeysToPoll(c, pair, to, later, days)
  {
    hide MailKey, KeysFrom;
    DaysApart(t, later, days);
    BlockDays(t / DAY_MS, later / DAY_MS, days);
    var x, y := DayOf(t), DayOf(later);
    assert y - days < x <= y;
    hide DayOf, SameBlock;
    KeysFromContents(c, pair, to, y, 0, days, MailKey(c, pair, to, x));
  }

  lemma PolledOnlyInBlock(c: Crypto, pair: Key, to: Key, t: U64, later: U64, days: nat)
    requires 0 < days < TWO32 && t <= later <= t + (days - 1) * DAY_MS && DaysDiffer(c, pair, to)
    requires MailKey(c, pair, to, DayOf(t)) in KeysToPoll(c, pair, to, later, days)
    ensures SameBlock(t, later)
  {
    hide MailKey, KeysFrom;
    var x, y := DayOf(t), DayOf(later);
    assert x < TWO32 && y < TWO32;
    KeysFromContents(c, pair, to, y, 0, days, MailKey(c, pair, to, x));
    var day: nat :| y - days < day <= y && MailKey(c, pair, to, x) == MailKey(c, pair, to, day);
    assert day == x;
    hide DaysDiffer;
    DaysApart(t, later, days);
    BlockDays(t / DAY_MS, later / DAY_MS, days);
  }

  /** A letter stored at `t` is under one of the keys polled at `later`, up to `days - 1` days on, exactly when both times
      are in one block of 2^32 days; a poll across the truncation of the day number misses it. */
  lemma PolledExactly(c: Crypto, pair: Key, to: Key, t: U64, later: U64, days: nat)
    requires 0 < days < TWO32 && t <= later <= t + (days - 1) * DAY_MS && DaysDiffer(c, pair, to)
    ensures MailKey(c, pair, to, DayOf(t)) in KeysToPoll(c, pair, to, later, days) <==> SameBlock(t, later)
  {
    hide MailKey, KeysToPoll, DaysDiffer, SameBlock, DayOf;
    if SameBlock(t, later) { PolledInBlock(c, pair, to, t, later, days); }
    if MailKey(c, pair, to, DayOf(t)) in KeysToPoll(c, pair, to, later, days) { PolledOnlyInBlock(c, pair, to, t, later, days); }
  }

  /** Two such times exist: the last day of the first block, and the day after it. */
  lemma BlocksMeet()
    ensures var t: U64 := (TWO32 - 1) * DAY_MS; var later: U64 := TWO32 * DAY_MS;
            t <= later <= t + (2 - 1) * DAY_MS && !SameBlock(t, later) && DayOf(later) == 0 && DayOf(t) == TWO32 - 1
  {
  }

  // ----- what one writes the other reads

  lemma PlainRoundTrip(token: Key, envelope: Bytes)
    requires |Plain(token, envelope)| <= MAX_PLAINTEXT
    ensures OpenPlain(Plain(token, envelope)) == Some(Opened(envelope, token))
  {
    hide ReadKey, ReadBlob, PutBlob;
    KeyRoundTrip(token, PutBlob(envelope));
    Nil(PutBlob(envelope));
    BlobRoundTrip(envelope, []);
  }

  /** Every letter up to the size limit is stored, is found by the other of the pair within the days they poll, opens to
      the same envelope, and its token is the one whose hash was stored with it. */
  lemma MailArrives(c: Crypto, a: Key, b: Key, signA: Key, signB: Key, t: U64, later: U64, days: nat,
                    envelope: Bytes, token: Key, nonce: Bytes)
    requires DhLaw(c) && CipherLaws(c) && |nonce| == NONCE_LEN
    requires 0 < days < TWO32 && t <= later <= t + (days - 1) * DAY_MS && SameBlock(t, later)
    requires PairSecret(c, a, c.public(b), signA, signB).Some?
    ensures var mine := PairSecret(c, a, c.public(b), signA, signB);
            var theirs := PairSecret(c, b, c.public(a), signB, signA);
            var item := MailTo(c, mine.value, signB, t, envelope, token, nonce);
            && theirs.Some?
            && (item.Some? <==> |envelope| + 40 <= MAX_PLAINTEXT)
            && (item.Some? ==>
                  && item.value.key in KeysToPoll(c, theirs.value, signB, later, days)
                  && OpenMail(c, theirs.value, item.value.key, item.value.value) == Some(Opened(envelope, token))
                  && item.value.deleteHash == DeleteHash(c, token))
  {
    PairIsSymmetric(c, a, b, signA, signB);
    var pair := PairSecret(c, a, c.public(b), signA, signB).value;
    hide PairSecret;
    PolledInBlock(c, pair, signB, t, later, days);
    var plain := Plain(token, envelope);
    SealRoundTrip(c, pair, MailLabel, MailKey(c, pair, signB, DayOf(t)), plain, nonce);
    if |plain| <= MAX_PLAINTEXT { PlainRoundTrip(token, envelope); }
    hide Seal, Open, OpenPlain, MailKey, KeysToPoll;
  }

  /** There is a secret exactly when the shared key is not all zeros. */
  lemma PairSecretExactly(c: Crypto, mySecret: Key, theirPublic: Key, mySign: Key, theirSign: Key)
    ensures PairSecret(c, mySecret, theirPublic, mySign, theirSign).None? <==>
            forall i :: 0 <= i < 32 ==> c.dh(mySecret, theirPublic)[i] == 0
  {
    var shared := c.dh(mySecret, theirPublic);
    assert shared == seq(32, _ => 0) <==> forall i :: 0 <= i < 32 ==> shared[i] == 0;
  }

  /** What the secret of a pair is derived from. */
  function PairText(c: Crypto, s: Key, p: Key, a: Key, b: Key): Bytes {
    c.dh(s, p) + (if Less(b, a) then b + a else a + b)
  }

  predicate NoClash(c: Crypto, x: Bytes, y: Bytes) { c.derive(PairLabel, x) == c.derive(PairLabel, y) ==> x == y }

  /** Where derivations do not collide, the secret names both identities: two pairs with the same one are the same two people
      with the same shared key. */
  lemma PairBinds(c: Crypto, s: Key, p: Key, a: Key, b: Key, s': Key, p': Key, a': Key, b': Key)
    requires NoClash(c, PairText(c, s, p, a, b), PairText(c, s', p', a', b'))
    requires PairSecret(c, s, p, a, b).Some? && PairSecret(c, s, p, a, b) == PairSecret(c, s', p', a', b')
    ensures c.dh(s, p) == c.dh(s', p') && ((a == a' && b == b') || (a == b' && b == a'))
  {
    var k, k' := c.dh(s, p), c.dh(s', p');
    var lo, hi := if Less(b, a) then b else a, if Less(b, a) then a else b;
    var lo', hi' := if Less(b', a') then b' else a', if Less(b', a') then a' else b';
    Assoc(k, lo, hi);
    Assoc(k', lo', hi');
    assert PairText(c, s, p, a, b) == k + lo + hi && PairText(c, s', p', a', b') == k' + lo' + hi';
    hide Less;
    Halves(k + lo, hi);
    Halves(k' + lo', hi');
    Halves(k, lo);
    Halves(k', lo');
  }

  predicate NoMacClash(c: Crypto, pair: Key, x: Bytes, y: Bytes) { c.mac(pair, x) == c.mac(pair, y) ==> x == y }

  /** Where keyed hashes do not collide, each direction of a pair has a key of its own for each day. */
  lemma MailKeyBinds(c: Crypto, pair: Key, to: Key, day: nat, to': Key, day': nat)
    requires day < TWO32 && day' < TWO32 && NoMacClash(c, pair, to + LeBytes(day, 4), to' + LeBytes(day', 4))
    requires MailKey(c, pair, to, day) == MailKey(c, pair, to', day')
    ensures to == to' && day == day'
  {
    hide LeBytes, LeValue, Pow256;
    Pow256Values();
    LeRoundTrip(day, 4);
    LeRoundTrip(day', 4);
    Halves(to, LeBytes(day, 4));
    Halves(to', LeBytes(day', 4));
  }

  /** A letter waits seven days, and what lets it be deleted is the digest of its token. */
  lemma MailExpires(c: Crypto, pair: Key, to: Key, now: U64, envelope: Bytes, token: Key, nonce: Bytes)
    requires now + 7 * 24 * 3600 * 1000 < TWO64 && MailTo(c, pair, to, now, envelope, token, nonce).Some?
    ensures MailTo(c, pair, to, now, envelope, token, nonce).value.expires == now + 604_800_000
    ensures MailTo(c, pair, to, now, envelope, token, nonce).value.deleteHash == c.digest(token)
  {
    hide Seal;
  }

  /** Mail opens only under its own key and with its own pair's secret. */
  lemma MailBinds(c: Crypto, pair: Key, to: Key, now: U64, envelope: Bytes, token: Key, nonce: Bytes, pair': Key, key': Key)
    requires |nonce| == NONCE_LEN && MailTo(c, pair, to, now, envelope, token, nonce).Some?
    requires Unforged(c, c.derive(MailLabel, pair), nonce, MailKey(c, pair, to, DayOf(now)), Pad(Plain(token, envelope)).value,
                      c.derive(MailLabel, pair'), key')
    requires var item := MailTo(c, pair, to, now, envelope, token, nonce).value;
             key' != item.key || c.derive(MailLabel, pair) != c.derive(MailLabel, pair')
    ensures OpenMail(c, pair', key', MailTo(c, pair, to, now, envelope, token, nonce).value.value) == None
  {
    hide Open, Pad;
    var key := MailKey(c, pair, to, DayOf(now));
    SealBinds(c, pair, MailLabel, key, Plain(token, envelope), nonce, pair', MailLabel, key');
  }
}
