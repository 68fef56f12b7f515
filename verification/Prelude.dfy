/** What every model shares: failure-carrying results, bytes, and the order Rust gives to byte strings. */
module Prelude {
  datatype Option<+T> = None | Some(value: T)

  datatype Result<+T, +E> = Ok(value: T) | Err(error: E)

  type byte = b: int | 0 <= b < 256

  type Bytes = seq<byte>

  /** Rust's `[u8; 32]`. */
  type Key = b: Bytes | |b| == 32 witness seq(32, _ => 0)

  /** Rust's `u64`. */
  type U64 = n: nat | n < 0x1_0000_0000_0000_0000

  /** Rust's `i64`. */
  type I64 = n: int | -0x8000_0000_0000_0000 <= n < 0x8000_0000_0000_0000

  /** What `Date.now()` can return, in milliseconds. */
  type Millis = n: int | -8_640_000_000_000_000 <= n <= 8_640_000_000_000_000

  const TWO32 := 0x1_0000_0000
  const TWO64 := 0x1_0000_0000_0000_0000

  /** The two ends of a conversation or of a pipe. */
  datatype Side = A | B

  function Other(x: Side): Side { if x == A then B else A }

  /** Lexicographic "less than", as Rust compares `[u8]`. */
  predicate Less(a: Bytes, b: Bytes) {
    if b == [] then false
    else if a == [] then true
    else if a[0] != b[0] then a[0] < b[0]
    else Less(a[1..], b[1..])
  }

  lemma {:induction false} LessTrichotomy(a: Bytes, b: Bytes)
    ensures a != b ==> Less(a, b) != Less(b, a)
    ensures a == b ==> !Less(a, b)
  {
    if a != [] && b != [] && a[0] == b[0] {
      LessTrichotomy(a[1..], b[1..]);
      assert a == [a[0]] + a[1..] && b == [b[0]] + b[1..];
    }
  }

  lemma {:induction false} LessTransitive(a: Bytes, b: Bytes, c: Bytes)
    requires Less(a, b) && Less(b, c)
    ensures Less(a, c)
  {
    if a != [] && a[0] == b[0] && b[0] == c[0] {
      LessTransitive(a[1..], b[1..], c[1..]);
    }
  }

  /** The two agree up to some place, where the first has the smaller byte. */
  ghost predicate SmallerAt(a: Bytes, b: Bytes, i: nat) { i < |a| && i < |b| && a[..i] == b[..i] && a[i] < b[i] }

  /** Of two strings of one length the first is less if and only if the first byte in which they differ is smaller in it. */
  lemma {:induction false} LessExactly(a: Bytes, b: Bytes)
    requires |a| == |b|
    ensures Less(a, b) <==> exists i :: SmallerAt(a, b, i)
  {
    if a != [] {
      LessExactly(a[1..], b[1..]);
      assert a == [a[0]] + a[1..] && b == [b[0]] + b[1..];
      if i: nat :| SmallerAt(a[1..], b[1..], i) && a[0] == b[0] {
        assert a[..i + 1] == [a[0]] + a[1..][..i] && b[..i + 1] == [b[0]] + b[1..][..i];
        assert SmallerAt(a, b, i + 1);
      }
      if i: nat :| SmallerAt(a, b, i) && i > 0 {
        assert a[1..][..i - 1] == a[..i][1..] && b[1..][..i - 1] == b[..i][1..];
        assert a[..i][0] == b[..i][0];
        assert SmallerAt(a[1..], b[1..], i - 1);
      }
      assert a[0] < b[0] ==> SmallerAt(a, b, 0);
    }
  }

  // ----- sequences

  lemma Assoc<T>(a: seq<T>, b: seq<T>, c: seq<T>)
    ensures (a + b) + c == a + (b + c)
  {
  }

  lemma Tail<T>(a: seq<T>, b: seq<T>)
    requires a != []
    ensures (a + b)[0] == a[0] && (a + b)[1..] == a[1..] + b
  {
  }

  lemma Cons<T>(x: T, s: seq<T>)
    ensures ([x] + s)[0] == x && ([x] + s)[1..] == s
  {
  }

  lemma Halves<T>(a: seq<T>, b: seq<T>)
    ensures (a + b)[..|a|] == a && (a + b)[|a|..] == b
  {
  }

  lemma Nil<T>(s: seq<T>)
    ensures [] + s == s && s + [] == s
  {
  }

  lemma Cut<T>(s: seq<T>, n: nat)
    requires n <= |s|
    ensures s == s[..n] + s[n..]
  {
  }

  lemma Drops<T>(s: seq<T>, i: nat, j: nat)
    requires i + j <= |s|
    ensures s[i..][j..] == s[i + j..] && s[i..][..j] == s[i..i + j]
  {
  }

  lemma Sub<T>(s: seq<T>, i: nat, j: nat, a: nat, b: nat)
    requires a <= b && i + b <= j <= |s|
    ensures s[i..j][a..b] == s[i + a..i + b]
  {
    var t := s[i..j];
    assert forall k :: 0 <= k < |t| ==> t[k] == s[i + k];
    var u := t[a..b];
    assert forall k :: 0 <= k < |u| ==> u[k] == t[a + k];
  }

  lemma PrefixSlice<T>(p: seq<T>, s: seq<T>, i: nat, j: nat)
    requires p <= s && i <= j <= |p|
    ensures s[i..j] == p[i..j]
  {
    assert forall k :: 0 <= k < |p| ==> p[k] == s[k];
  }

  lemma Within<T>(p: seq<T>, m: seq<T>, s: seq<T>)
    requires p + m <= s
    ensures p <= s && s[|p|..|p| + |m|] == m && s[..|p|] == p
  {
    Halves(p, m);
    PrefixSlice(p + m, s, |p|, |p| + |m|);
    PrefixSlice(p + m, s, 0, |p|);
  }

  /** A parser's result with `done` in front: what a loop has read so far, and what is still to come. */
  function Prepend<T, E>(done: seq<T>, r: Result<seq<T>, E>): Result<seq<T>, E> {
    if r.Ok? then Ok(done + r.value) else r
  }

  lemma Advance<T, E>(done: seq<T>, x: T, r: Result<seq<T>, E>)
    ensures Prepend(done, Prepend([x], r)) == Prepend(done + [x], r)
  {
    if r.Ok? { Assoc(done, [x], r.value); }
  }

  predicate Distinct<T(==)>(s: seq<T>) { forall i, j :: 0 <= i < j < |s| ==> s[i] != s[j] }

  /** The elements that pass a test, in their order. */
  function Filter<T>(s: seq<T>, f: T -> bool): seq<T> {
    if s == [] then [] else (if f(s[0]) then [s[0]] else []) + Filter(s[1..], f)
  }

  lemma {:induction false} FilterContents<T>(s: seq<T>, f: T -> bool)
    ensures forall x :: x in Filter(s, f) <==> x in s && f(x)
    ensures (forall x :: x in s ==> f(x)) ==> Filter(s, f) == s
    decreases |s|
  {
    if s != [] {
      FilterContents(s[1..], f);
      Cut(s, 1);
      assert s[..1] == [s[0]];
    }
  }

  /** The four letters that name a chunk of a PNG or RIFF file. */
  datatype FourCC = FourCC(a: byte, b: byte, c: byte, d: byte)

  function Letters(s: Bytes): FourCC
    requires |s| >= 4
  {
    FourCC(s[0], s[1], s[2], s[3])
  }

  // ----- little-endian integers

  function Pow256(k: nat): (p: nat)
    ensures p >= 1
  {
    if k == 0 then 1 else 256 * Pow256(k - 1)
  }

  /** The `k` low bytes of `n`, least significant first. */
  function LeBytes(n: nat, k: nat): (s: Bytes)
    ensures |s| == k
  {
    if k == 0 then [] else [n % 256] + LeBytes(n / 256, k - 1)
  }

  function LeValue(s: Bytes): (n: nat)
    ensures n < Pow256(|s|)
  {
    if s == [] then 0 else s[0] + 256 * LeValue(s[1..])
  }

  lemma {:induction false} LeRoundTrip(n: nat, k: nat)
    requires n < Pow256(k)
    ensures LeValue(LeBytes(n, k)) == n
  {
    if k > 0 {
      LeRoundTrip(n / 256, k - 1);
      assert LeBytes(n, k)[1..] == LeBytes(n / 256, k - 1);
    }
  }

  lemma DivMod256(a: byte, v: nat)
    ensures (a + 256 * v) % 256 == a && (a + 256 * v) / 256 == v
  {
  }

  lemma {:induction false} LeCanonical(s: Bytes)
    ensures LeBytes(LeValue(s), |s|) == s
  {
    if s != [] {
      LeCanonical(s[1..]);
      DivMod256(s[0], LeValue(s[1..]));
      Cut(s, 1);
      assert s[..1] == [s[0]];
    }
  }

  lemma Pow256Values()
    ensures Pow256(4) == TWO32 && Pow256(8) == TWO64
  {
    assert Pow256(1) == 256 && Pow256(2) == 65536 && Pow256(3) == 0x100_0000;
    assert Pow256(4) == 256 * Pow256(3);
    assert Pow256(5) == 256 * Pow256(4) && Pow256(6) == 256 * Pow256(5);
    assert Pow256(7) == 256 * Pow256(6) && Pow256(8) == 256 * Pow256(7);
  }
}
