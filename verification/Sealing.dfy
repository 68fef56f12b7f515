/** Values as the relay network stores them: padded to a power of two, then sealed under a key only their readers can
    compute. */
module Sealing {
  import opened Prelude

  const MIN_BUCKET := 256
  const MAX_BUCKET := 4 * 1024 * 1024
  const MAX_PLAINTEXT := MAX_BUCKET - 64
  const NONCE_LEN := 24
  const DAY_MS := 24 * 3600 * 1000

  /** The purpose of a derivation or the kind of an item. */
  datatype Label = PairLabel | MailLabel | AliasLabel | AliasSecretLabel

  /** The primitives, kept symbolic. */
  datatype Crypto = Crypto(
    public: Key -> Key,
    dh: (Key, Key) -> Key,
    derive: (Label, Bytes) -> Key,
    mac: (Key, Bytes) -> Key,
    digest: Bytes -> Key,
    encrypt: (Key, Bytes, Bytes, Bytes) -> Bytes,
    decrypt: (Key, Bytes, Bytes, Bytes) -> Option<Bytes>,
    verifying: Key -> Key,
    sign: (Key, Bytes) -> Bytes,
    verify: (Key, Bytes, Bytes) -> bool)

  ghost predicate DhLaw(c: Crypto) { forall a, b :: c.dh(a, c.public(b)) == c.dh(b, c.public(a)) }

  ghost predicate CipherLaws(c: Crypto) {
    && (forall k, n, a, m :: c.decrypt(k, n, a, c.encrypt(k, n, a, m)) == Some(m))
    && (forall k, n, a, m :: |c.encrypt(k, n, a, m)| == |m| + 16)
  }

  ghost predicate SignatureLaws(c: Crypto) {
    && (forall k, m :: c.verify(c.verifying(k), m, c.sign(k, m)))
    && (forall k, m :: |c.sign(k, m)| == 64)
  }

  // ----- padding

  predicate PowerOfTwo(n: nat) { n == 1 || (n > 1 && n % 2 == 0 && PowerOfTwo(n / 2)) }

  /** `usize::next_power_of_two`, starting from the power `p`. */
  function NextPower(n: nat, p: nat): (r: nat)
    requires p > 0
    decreases n - p
  {
    if n <= p then p else NextPower(n, 2 * p)
  }

  function Bucket(length: nat): nat { var b := NextPower(length + 4, 1); if b < MIN_BUCKET then MIN_BUCKET else b }

  lemma Doubled(p: nat)
    requires PowerOfTwo(p)
    ensures PowerOfTwo(2 * p)
  {
    assert (2 * p) / 2 == p;
  }

  /** The least power of two, among those reached by doubling `p`, that is not below `n`. */
  lemma {:induction false} NextPowerIsLeast(n: nat, p: nat)
    requires PowerOfTwo(p)
    ensures var r := NextPower(n, p); PowerOfTwo(r) && r >= n && r >= p && (r > p ==> r < 2 * n)
    decreases n - p
  {
    if n > p {
      Doubled(p);
      NextPowerIsLeast(n, 2 * p);
    }
  }

  /** Powers of two below twice a power of two do not exceed it. */
  lemma {:induction false} PowerGap(a: nat, b: nat)
    requires PowerOfTwo(a) && PowerOfTwo(b) && a < 2 * b
    ensures a <= b
  {
    if b > 1 && a > 1 { PowerGap(a / 2, b / 2); }
  }

  lemma MaxIsPower()
    ensures PowerOfTwo(MIN_BUCKET) && PowerOfTwo(MAX_BUCKET)
  {
    assert PowerOfTwo(1) && PowerOfTwo(2) && PowerOfTwo(4);
    Doubled(4); Doubled(8); Doubled(16); Doubled(32); Doubled(64); Doubled(128);
    Doubled(256); Doubled(512); Doubled(1024); Doubled(2048); Doubled(4096); Doubled(8192); Doubled(16384);
    Doubled(32768); Doubled(65536); Doubled(131072); Doubled(262144); Doubled(524288); Doubled(1048576); Doubled(2097152);
  }

  /** Every plaintext the network takes fits its bucket, and the buckets are the powers of two from 256 to 4 MiB: the
      smallest of them that holds the text and its length. */
  lemma BucketFits(length: nat)
    requires length <= MAX_PLAINTEXT
    ensures var b := Bucket(length);
            && PowerOfTwo(b) && length + 4 <= b && MIN_BUCKET <= b <= MAX_BUCKET
            && (b > MIN_BUCKET ==> b < 2 * (length + 4))
  {
    MaxIsPower();
    NextPowerIsLeast(length + 4, 1);
    var b := NextPower(length + 4, 1);
    if b > 1 { PowerGap(b, MAX_BUCKET); }
    hide NextPower, PowerOfTwo;
  }

  function Zeros(n: nat): Bytes { seq(n, _ => 0) }

  function Pad(plaintext: Bytes): (r: Option<Bytes>) {
    if |plaintext| > MAX_PLAINTEXT || Bucket(|plaintext|) < |plaintext| + 4 then None
    else Some(LeBytes(|plaintext|, 4) + (plaintext + Zeros(Bucket(|plaintext|) - |plaintext| - 4)))
  }

  function Unpad(padded: Bytes): Option<Bytes> {
    if |padded| < 4 then None
    else
      var length := LeValue(padded[..4]);
      if 4 + length > |padded| then None else Some(padded[4..4 + length])
  }

  /** Padding is undone exactly, and all that shows of a text's length is its bucket. */
  lemma PadRoundTrip(plaintext: Bytes)
    ensures Pad(plaintext).Some? <==> |plaintext| <= MAX_PLAINTEXT
    ensures Pad(plaintext).Some? ==> Unpad(Pad(plaintext).value) == Some(plaintext) && |Pad(plaintext).value| == Bucket(|plaintext|)
  {
    if |plaintext| <= MAX_PLAINTEXT {
      BucketFits(|plaintext|);
      hide Bucket;
      var n, zeros := LeBytes(|plaintext|, 4), Zeros(Bucket(|plaintext|) - |plaintext| - 4);
      var padded := n + (plaintext + zeros);
      Pow256Values();
      LeRoundTrip(|plaintext|, 4);
      hide LeBytes, LeValue;
      Halves(n, plaintext + zeros);
      Halves(plaintext, zeros);
      Drops(padded, 4, |plaintext|);
      assert padded[4..] == plaintext + zeros;
    }
  }

  // ----- sealing

  function Seal(c: Crypto, secret: Key, kind: Label, at: Key, plaintext: Bytes, nonce: Bytes): Option<Bytes> {
    var padded := Pad(plaintext);
    if padded.None? then None else Some(nonce + c.encrypt(c.derive(kind, secret), nonce, at, padded.value))
  }

  function Open(c: Crypto, secret: Key, kind: Label, at: Key, sealed: Bytes): Option<Bytes> {
    if |sealed| < NONCE_LEN then None
    else
      var padded := c.decrypt(c.derive(kind, secret), sealed[..NONCE_LEN], at, sealed[NONCE_LEN..]);
      if padded.None? then None else Unpad(padded.value)
  }

  lemma SealRoundTrip(c: Crypto, secret: Key, kind: Label, at: Key, plaintext: Bytes, nonce: Bytes)
    requires CipherLaws(c) && |nonce| == NONCE_LEN
    ensures var s := Seal(c, secret, kind, at, plaintext, nonce);
            && (s.Some? <==> |plaintext| <= MAX_PLAINTEXT)
            && (s.Some? ==> Open(c, secret, kind, at, s.value) == Some(plaintext)
                            && |s.value| == NONCE_LEN + Bucket(|plaintext|) + 16)
  {
    PadRoundTrip(plaintext);
    hide Pad, Unpad, Bucket;
    var s := Seal(c, secret, kind, at, plaintext, nonce);
    if s.Some? { Halves(nonce, c.encrypt(c.derive(kind, secret), nonce, at, Pad(plaintext).value)); }
  }

  /** What was sealed with `k` beside `a` is no forgery of something else beside `a'`. */
  predicate Unforged(c: Crypto, k: Key, n: Bytes, a: Bytes, m: Bytes, k': Key, a': Bytes) {
    k != k' || a != a' ==> c.decrypt(k', n, a', c.encrypt(k, n, a, m)) == None
  }

  /** A sealed value opens only where it was stored, and only with the secret and for the kind of item it was sealed for. */
  lemma SealBinds(c: Crypto, secret: Key, kind: Label, at: Key, plaintext: Bytes, nonce: Bytes, secret': Key, kind': Label, at': Key)
    requires |nonce| == NONCE_LEN && Seal(c, secret, kind, at, plaintext, nonce).Some?
    requires Unforged(c, c.derive(kind, secret), nonce, at, Pad(plaintext).value, c.derive(kind', secret'), at')
    requires at != at' || c.derive(kind, secret) != c.derive(kind', secret')
    ensures Open(c, secret', kind', at', Seal(c, secret, kind, at, plaintext, nonce).value) == None
  {
    hide Pad, Unpad;
    Halves(nonce, c.encrypt(c.derive(kind, secret), nonce, at, Pad(plaintext).value));
  }
}
