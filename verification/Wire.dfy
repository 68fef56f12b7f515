/** The part of bincode's fixed-width encoding that stored profiles use: a value is printed in front of whatever follows,
    and reading takes it off the front again. */
module Wire {
  import opened Prelude

  /** A reader's result: the value and the bytes after it. */
  type Read<T> = Option<(T, Bytes)>

  function PutU64(n: nat): Bytes { LeBytes(n, 8) }

  function ReadU64(s: Bytes): Read<nat> {
    if |s| < 8 then None else Some((LeValue(s[..8]), s[8..]))
  }

  lemma U64RoundTrip(n: nat, rest: Bytes)
    requires n < TWO64
    ensures ReadU64(PutU64(n) + rest) == Some((n, rest))
  {
    Halves(PutU64(n), rest);
    Pow256Values();
    LeRoundTrip(n, 8);
  }

  /** Two's complement. */
  function PutI64(n: I64): Bytes { PutU64(if n < 0 then n + TWO64 else n) }

  function ReadI64(s: Bytes): Read<I64> {
    if |s| < 8 then None
    else
      Pow256Values();
      var n := LeValue(s[..8]);
      Some((if n < TWO64 / 2 then n else n - TWO64, s[8..]))
  }

  lemma I64RoundTrip(n: I64, rest: Bytes)
    ensures ReadI64(PutI64(n) + rest) == Some((n, rest))
  {
    U64RoundTrip(if n < 0 then n + TWO64 else n, rest);
  }

  function ReadU8(s: Bytes): Read<byte> { if s == [] then None else Some((s[0], s[1..])) }

  function ReadKey(s: Bytes): Read<Key> { if |s| < 32 then None else Some((s[..32], s[32..])) }

  lemma KeyRoundTrip(k: Key, rest: Bytes)
    ensures ReadKey(k + rest) == Some((k, rest))
  {
    Halves(k, rest);
  }

  /** Byte vectors and strings: a length, then the bytes. */
  function PutBlob(b: Bytes): Bytes { PutU64(|b|) + b }

  function ReadBlob(s: Bytes): Read<Bytes> {
    var n := ReadU64(s);
    if n.None? || n.value.0 > |n.value.1| then None
    else Some((n.value.1[..n.value.0], n.value.1[n.value.0..]))
  }

  lemma BlobRoundTrip(b: Bytes, rest: Bytes)
    requires |PutBlob(b)| < TWO64
    ensures ReadBlob(PutBlob(b) + rest) == Some((b, rest))
  {
    hide ReadU64, PutU64;
    Assoc(PutU64(|b|), b, rest);
    assert |b| < TWO64 by { assert |PutBlob(b)| == |PutU64(|b|)| + |b|; }
    U64RoundTrip(|b|, b + rest);
    Halves(b, rest);
  }

  // ----- lists

  function PutAll<T>(xs: seq<T>, put: T -> Bytes): Bytes {
    if xs == [] then [] else put(xs[0]) + PutAll(xs[1..], put)
  }

  function PutList<T>(xs: seq<T>, put: T -> Bytes): Bytes { PutU64(|xs|) + PutAll(xs, put) }

  function ReadMany<T>(n: nat, s: Bytes, read: Bytes -> Read<T>): Read<seq<T>> {
    if n == 0 then Some(([], s))
    else
      var x := read(s);
      if x.None? then None
      else
        var more := ReadMany(n - 1, x.value.1, read);
        if more.None? then None else Some(([x.value.0] + more.value.0, more.value.1))
  }

  function ReadList<T>(s: Bytes, read: Bytes -> Read<T>): Read<seq<T>> {
    var n := ReadU64(s);
    if n.None? then None else ReadMany(n.value.0, n.value.1, read)
  }

  /** `read` takes off what `put` prints, and `put` prints something. */
  ghost predicate Inverse<T(!new)>(put: T -> Bytes, read: Bytes -> Read<T>) {
    && (forall x, rest :: |put(x)| < TWO64 ==> read(put(x) + rest) == Some((x, rest)))
    && (forall x :: |put(x)| > 0)
  }

  lemma {:induction false} AllRoundTrip<T(!new)>(xs: seq<T>, put: T -> Bytes, read: Bytes -> Read<T>, rest: Bytes)
    requires Inverse(put, read) && |PutAll(xs, put)| < TWO64
    ensures ReadMany(|xs|, PutAll(xs, put) + rest, read) == Some((xs, rest))
    decreases |xs|
  {
    if xs == [] {
      Nil(rest);
    } else {
      var more := PutAll(xs[1..], put);
      assert PutAll(xs, put) == put(xs[0]) + more;
      Assoc(put(xs[0]), more, rest);
      AllRoundTrip(xs[1..], put, read, rest);
      Cut(xs, 1);
      assert xs[..1] == [xs[0]];
    }
  }

  lemma {:induction false} AllBounds<T(!new)>(xs: seq<T>, put: T -> Bytes, read: Bytes -> Read<T>)
    requires Inverse(put, read)
    ensures |xs| <= |PutAll(xs, put)|
    decreases |xs|
  {
    if xs != [] { AllBounds(xs[1..], put, read); }
  }

  lemma ListRoundTrip<T(!new)>(xs: seq<T>, put: T -> Bytes, read: Bytes -> Read<T>, rest: Bytes)
    requires Inverse(put, read) && |PutList(xs, put)| < TWO64
    ensures ReadList(PutList(xs, put) + rest, read) == Some((xs, rest))
  {
    hide PutU64, ReadU64, PutAll, ReadMany, Inverse;
    var all := PutAll(xs, put);
    assert |PutList(xs, put)| == |PutU64(|xs|)| + |all|;
    AllBounds(xs, put, read);
    Assoc(PutU64(|xs|), all, rest);
    U64RoundTrip(|xs|, all + rest);
    AllRoundTrip(xs, put, read, rest);
  }

  // ----- what is read was printed

  lemma U64Canonical(s: Bytes)
    requires ReadU64(s).Some?
    ensures var (n, rest) := ReadU64(s).value; s == PutU64(n) + rest && n < TWO64
  {
    Cut(s, 8);
    LeCanonical(s[..8]);
    Pow256Values();
  }

  lemma I64Canonical(s: Bytes)
    requires ReadI64(s).Some?
    ensures var (n, rest) := ReadI64(s).value; s == PutI64(n) + rest
  {
    U64Canonical(s);
  }

  lemma KeyCanonical(s: Bytes)
    requires ReadKey(s).Some?
    ensures var (k, rest) := ReadKey(s).value; s == k + rest
  {
    Cut(s, 32);
  }

  lemma BlobCanonical(s: Bytes)
    requires ReadBlob(s).Some?
    ensures var (b, rest) := ReadBlob(s).value; s == PutBlob(b) + rest
  {
    U64Canonical(s);
    hide ReadU64, PutU64;
    var (n, t) := ReadU64(s).value;
    Cut(t, n);
    Assoc(PutU64(n), t[..n], t[n..]);
  }

  /** `read` takes off only what `put` prints. */
  ghost predicate Canonical<T(!new)>(put: T -> Bytes, read: Bytes -> Read<T>) {
    forall s :: read(s).Some? ==> s == put(read(s).value.0) + read(s).value.1
  }

  lemma {:induction false} ManyCanonical<T(!new)>(n: nat, s: Bytes, put: T -> Bytes, read: Bytes -> Read<T>)
    requires Canonical(put, read) && ReadMany(n, s, read).Some?
    ensures var (xs, rest) := ReadMany(n, s, read).value; |xs| == n && s == PutAll(xs, put) + rest
    decreases n
  {
    if n == 0 {
      Nil(s);
    } else {
      var (x, t) := read(s).value;
      ManyCanonical(n - 1, t, put, read);
      var (xs, rest) := ReadMany(n - 1, t, read).value;
      Cons(x, xs);
      Assoc(put(x), PutAll(xs, put), rest);
    }
  }

  lemma ListCanonical<T(!new)>(s: Bytes, put: T -> Bytes, read: Bytes -> Read<T>)
    requires Canonical(put, read) && ReadList(s, read).Some?
    ensures var (xs, rest) := ReadList(s, read).value; s == PutList(xs, put) + rest
  {
    U64Canonical(s);
    hide ReadU64, PutU64, Canonical, ReadMany, PutAll;
    var (n, t) := ReadU64(s).value;
    ManyCanonical(n, t, put, read);
    var (xs, rest) := ReadMany(n, t, read).value;
    Assoc(PutU64(n), PutAll(xs, put), rest);
  }
}
