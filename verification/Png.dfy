/** `clean_png`: chunk by chunk, keeping the critical chunks and those that change how the image is drawn. */
module Png {
  import opened Prelude

  datatype Error = TruncatedHeader | ChunkPastEnd | FirstNotIhdr

  const SIGNATURE: Bytes := [0x89, 0x50, 0x4E, 0x47, 0x0D, 0x0A, 0x1A, 0x0A]

  /** A whole chunk: `bytes` are its length, kind, data and checksum fields. */
  datatype Chunk = Chunk(kind: FourCC, bytes: Bytes)

  const IHDR := FourCC(0x49, 0x48, 0x44, 0x52)
  const IEND := FourCC(0x49, 0x45, 0x4E, 0x44)

  /** gAMA cHRM sRGB iCCP sBIT bKGD hIST tRNS pHYs sPLT acTL fcTL fdAT cICP mDCv cLLi */
  const KEEP: set<FourCC> := {
    FourCC(0x67, 0x41, 0x4D, 0x41), FourCC(0x63, 0x48, 0x52, 0x4D), FourCC(0x73, 0x52, 0x47, 0x42), FourCC(0x69, 0x43, 0x43, 0x50),
    FourCC(0x73, 0x42, 0x49, 0x54), FourCC(0x62, 0x4B, 0x47, 0x44), FourCC(0x68, 0x49, 0x53, 0x54), FourCC(0x74, 0x52, 0x4E, 0x53),
    FourCC(0x70, 0x48, 0x59, 0x73), FourCC(0x73, 0x50, 0x4C, 0x54), FourCC(0x61, 0x63, 0x54, 0x4C), FourCC(0x66, 0x63, 0x54, 0x4C),
    FourCC(0x66, 0x64, 0x41, 0x54), FourCC(0x63, 0x49, 0x43, 0x50), FourCC(0x6D, 0x44, 0x43, 0x76), FourCC(0x63, 0x4C, 0x4C, 0x69)
  }

  function Be32(s: Bytes): nat
    requires |s| >= 4
  {
    0x100_0000 * (s[0] as int) + 0x1_0000 * (s[1] as int) + 0x100 * (s[2] as int) + s[3]
  }

  function KindAt(s: Bytes): FourCC
    requires |s| >= 8
  {
    FourCC(s[4], s[5], s[6], s[7])
  }

  /** Bit 5 of the first letter clear: the image cannot do without the chunk. */
  predicate Critical(kind: FourCC) { kind.a / 32 % 2 == 0 }

  predicate KindKept(kind: FourCC) { Critical(kind) || kind in KEEP }

  /** The chunks of `s` up to and with the first IEND. */
  function Parse(s: Bytes, first: bool): Result<seq<Chunk>, Error> {
    if |s| < 8 then Err(TruncatedHeader)
    else
      var size := 12 + Be32(s);
      if size > |s| then Err(ChunkPastEnd)
      else if first && KindAt(s) != IHDR then Err(FirstNotIhdr)
      else
        var chunk := Chunk(KindAt(s), s[..size]);
        if chunk.kind == IEND then Ok([chunk]) else Prepend([chunk], Parse(s[size..], false))
  }

  predicate Whole(c: Chunk) { |c.bytes| >= 12 && |c.bytes| == 12 + Be32(c.bytes) && c.kind == KindAt(c.bytes) }

  /** Whole chunks, IEND last and nowhere else. */
  predicate WellFormed(chunks: seq<Chunk>) {
    chunks != [] && Whole(chunks[0]) && (if chunks[0].kind == IEND then |chunks| == 1 else WellFormed(chunks[1..]))
  }

  function Kept(chunks: seq<Chunk>): seq<Chunk> {
    if chunks == [] then [] else (if KindKept(chunks[0].kind) then [chunks[0]] else []) + Kept(chunks[1..])
  }

  function Concat(chunks: seq<Chunk>): Bytes {
    if chunks == [] then [] else chunks[0].bytes + Concat(chunks[1..])
  }

  function Body(d: Bytes): Bytes { if |d| <= 8 then [] else d[8..] }

  /** What `clean_png` returns; the signature is the caller's to have seen. */
  function Clean(d: Bytes): Result<Bytes, Error> {
    var chunks := Parse(Body(d), true);
    if chunks.Err? then Err(chunks.error) else Ok(SIGNATURE + Concat(Kept(chunks.value)))
  }

  // ----- reading back

  /** The chunks are the input's own bytes, in order, with nothing between them. */
  lemma {:induction false} ParseSound(s: Bytes, first: bool)
    requires Parse(s, first).Ok?
    ensures Concat(Parse(s, first).value) <= s
    decreases |s|
  {
    var size := 12 + Be32(s);
    var chunks := Parse(s, first).value;
    if KindAt(s) == IEND {
      assert chunks[1..] == [];
    } else {
      ParseSound(s[size..], false);
      assert chunks[1..] == Parse(s[size..], false).value;
      assert s == s[..size] + s[size..];
    }
  }

  lemma {:induction false} ParseWellFormed(s: Bytes, first: bool)
    requires Parse(s, first).Ok?
    ensures WellFormed(Parse(s, first).value) && (first ==> Parse(s, first).value[0].kind == IHDR)
    decreases |s|
  {
    var size := 12 + Be32(s);
    if KindAt(s) != IEND {
      ParseWellFormed(s[size..], false);
      assert Parse(s, first).value[1..] == Parse(s[size..], false).value;
    }
  }

  lemma ParseOne(c: Chunk, tail: Bytes, first: bool)
    requires Whole(c) && (first ==> c.kind == IHDR)
    ensures Parse(c.bytes + tail, first) == if c.kind == IEND then Ok([c]) else Prepend([c], Parse(tail, false))
  {
    var s := c.bytes + tail;
    assert s[..|c.bytes|] == c.bytes && s[|c.bytes|..] == tail;
  }

  lemma {:induction false} ParseConcat(chunks: seq<Chunk>, first: bool)
    requires WellFormed(chunks) && (first ==> chunks[0].kind == IHDR)
    ensures Parse(Concat(chunks), first) == Ok(chunks)
    decreases |chunks|
  {
    ParseOne(chunks[0], Concat(chunks[1..]), first);
    hide Parse, Whole;
    if chunks[0].kind == IEND {
      assert chunks == [chunks[0]];
    } else {
      ParseConcat(chunks[1..], false);
      Cut(chunks, 1);
      assert chunks[..1] == [chunks[0]];
    }
  }

  lemma KeepsEnds()
    ensures KindKept(IEND) && KindKept(IHDR)
  {
  }

  lemma {:induction false} KeptFacts(chunks: seq<Chunk>)
    requires WellFormed(chunks)
    ensures WellFormed(Kept(chunks)) && Kept(Kept(chunks)) == Kept(chunks)
    ensures KindKept(chunks[0].kind) ==> Kept(chunks)[0] == chunks[0]
    ensures forall c :: c in Kept(chunks) ==> c in chunks && KindKept(c.kind)
    decreases |chunks|
  {
    hide KindKept;
    var rest := chunks[1..];
    KeepsEnds();
    if rest != [] {
      KeptFacts(rest);
      if KindKept(chunks[0].kind) {
        assert Kept(chunks)[1..] == Kept(rest);
      } else {
        assert Kept(chunks) == Kept(rest);
      }
    } else {
      assert Kept(chunks) == chunks;
    }
  }

  /** A second pass changes nothing, and what the first left is exactly the kept chunks, in input order. */
  lemma CleanIsFixedPoint(d: Bytes)
    requires Clean(d).Ok?
    ensures Clean(Clean(d).value) == Clean(d)
    ensures var chunks := Parse(Body(d), true).value;
            && Parse(Body(Clean(d).value), true) == Ok(Kept(chunks))
            && (forall c :: c in Kept(chunks) ==> c in chunks && KindKept(c.kind))
  {
    var chunks := Parse(Body(d), true).value;
    ParseWellFormed(Body(d), true);
    KeepsEnds();
    KeptFacts(chunks);
    ParseConcat(Kept(chunks), true);
    var out := Clean(d).value;
    assert |Kept(chunks)[0].bytes| >= 12;
    assert out[8..] == Concat(Kept(chunks));
  }

  // ----- the loop

  lemma {:induction false} KeptConcat(a: seq<Chunk>, b: seq<Chunk>)
    ensures Kept(a + b) == Kept(a) + Kept(b)
  {
    hide KindKept;
    if a == [] {
      Nil(b);
    } else {
      KeptConcat(a[1..], b);
      Tail(a, b);
      Assoc(if KindKept(a[0].kind) then [a[0]] else [], Kept(a[1..]), Kept(b));
    }
  }

  lemma {:induction false} ConcatAppend(chunks: seq<Chunk>, c: Chunk)
    ensures Concat(chunks + [c]) == Concat(chunks) + c.bytes
  {
    if chunks == [] {
      assert chunks + [c] == [c] && [c][1..] == [];
    } else {
      ConcatAppend(chunks[1..], c);
      assert (chunks + [c])[1..] == chunks[1..] + [c];
    }
  }

  lemma KeptAppend(chunks: seq<Chunk>, c: Chunk)
    ensures Concat(Kept(chunks + [c])) == Concat(Kept(chunks)) + if KindKept(c.kind) then c.bytes else []
  {
    hide KindKept;
    KeptConcat(chunks, [c]);
    if KindKept(c.kind) {
      assert Kept([c]) == [c];
      ConcatAppend(Kept(chunks), c);
    } else {
      assert Kept([c]) == [] && Kept(chunks) + [] == Kept(chunks);
    }
  }

  function ParseFrom(d: Bytes, i: nat, first: bool): Result<seq<Chunk>, Error> {
    Parse(if i <= |d| then d[i..] else [], first)
  }

  /** Header, bounds and kind of the chunk at `i`. */
  method ReadChunk(d: Bytes, i: nat, first: bool) returns (read: Result<Chunk, Error>)
    ensures read.Err? ==> ParseFrom(d, i, first) == Err(read.error)
    ensures read.Ok? ==> var c := read.value;
              && 0 < |c.bytes| <= |d| - i
              && ParseFrom(d, i, first) ==
                 if c.kind == IEND then Ok([c]) else Prepend([c], ParseFrom(d, i + |c.bytes|, false))
  {
    if i + 8 > |d| { return Err(TruncatedHeader); }
    ghost var s := d[i..];
    var header := d[i..i + 8];
    assert header == s[..8];
    var end := i + 12 + Be32(header);
    assert KindAt(s) == KindAt(header) && 12 + Be32(s) == end - i;
    if end > |d| { return Err(ChunkPastEnd); }
    if first && KindAt(header) != IHDR { return Err(FirstNotIhdr); }
    assert s[..end - i] == d[i..end] && s[end - i..] == d[end..];
    return Ok(Chunk(KindAt(header), d[i..end]));
  }

  lemma CleanIs(d: Bytes)
    ensures Clean(d) == var all := ParseFrom(d, 8, true);
                        if all.Err? then Err(all.error) else Ok(SIGNATURE + Concat(Kept(all.value)))
    ensures Prepend([], ParseFrom(d, 8, true)) == ParseFrom(d, 8, true)
    ensures SIGNATURE + Concat(Kept([])) == SIGNATURE
  {
    var all := ParseFrom(d, 8, true);
    assert all.Ok? ==> [] + all.value == all.value;
  }

  /** `clean_png`. */
  method CleanPng(d: Bytes) returns (r: Result<Bytes, Error>)
    ensures r == Clean(d)
  {
    CleanIs(d);
    hide KindKept, ParseFrom, Kept, Concat, Clean;
    var out := SIGNATURE;
    var i: nat := 8;
    var first, ended := true, false;
    ghost var done: seq<Chunk> := [];
    while !ended
      invariant ParseFrom(d, 8, true) == if ended then Ok(done) else Prepend(done, ParseFrom(d, i, first))
      invariant out == SIGNATURE + Concat(Kept(done))
      decreases !ended, |d| - i
    {
      var read := ReadChunk(d, i, first);
      if read.Err? { return Err(read.error); }
      var chunk := read.value;
      first := false;
      KeptAppend(done, chunk);
      if KindKept(chunk.kind) {
        out := out + chunk.bytes;
      }
      i := i + |chunk.bytes|;
      Advance(done, chunk, ParseFrom(d, i, false));
      done := done + [chunk];
      ended := chunk.kind == IEND;
    }
    return Ok(out);
  }

  // ----- what is kept, letter by letter

  /** gAMA cHRM sRGB iCCP, sBIT bKGD hIST tRNS, pHYs sPLT acTL fcTL, fdAT cICP mDCv cLLi: how the image is drawn or animated. */
  predicate Drawing(k: FourCC) {
    || k == FourCC(0x67, 0x41, 0x4D, 0x41) || k == FourCC(0x63, 0x48, 0x52, 0x4D) || k == FourCC(0x73, 0x52, 0x47, 0x42)
    || k == FourCC(0x69, 0x43, 0x43, 0x50) || k == FourCC(0x73, 0x42, 0x49, 0x54) || k == FourCC(0x62, 0x4B, 0x47, 0x44)
    || k == FourCC(0x68, 0x49, 0x53, 0x54) || k == FourCC(0x74, 0x52, 0x4E, 0x53) || k == FourCC(0x70, 0x48, 0x59, 0x73)
    || k == FourCC(0x73, 0x50, 0x4C, 0x54) || k == FourCC(0x61, 0x63, 0x54, 0x4C) || k == FourCC(0x66, 0x63, 0x54, 0x4C)
    || k == FourCC(0x66, 0x64, 0x41, 0x54) || k == FourCC(0x63, 0x49, 0x43, 0x50) || k == FourCC(0x6D, 0x44, 0x43, 0x76)
    || k == FourCC(0x63, 0x4C, 0x4C, 0x69)
  }

  /** Among letters: kept are the chunks whose first letter is upper case, and the sixteen. */
  predicate Wanted(c: Chunk) { 65 <= c.kind.a <= 90 || Drawing(c.kind) }

  predicate Lettered(c: Chunk) { 65 <= c.kind.a <= 90 || 97 <= c.kind.a <= 122 }

  lemma WantedExactly(c: Chunk)
    ensures 65 <= c.kind.a <= 90 ==> KindKept(c.kind)
    ensures Lettered(c) ==> (KindKept(c.kind) <==> Wanted(c))
  {
  }

  /** The chunks left are the input's, in order, and exactly the wanted ones; a chunk whose first letter is upper case is always
      left, whatever the other names look like. */
  lemma {:induction false} KeptExactly(chunks: seq<Chunk>)
    ensures forall c :: c in chunks && 65 <= c.kind.a <= 90 ==> c in Kept(chunks)
    ensures (forall c :: c in chunks ==> Lettered(c)) ==> Kept(chunks) == Filter(chunks, Wanted)
  {
    hide KindKept, Wanted, Lettered;
    if chunks != [] {
      WantedExactly(chunks[0]);
      KeptExactly(chunks[1..]);
      assert forall c :: c in chunks ==> c == chunks[0] || c in chunks[1..];
    }
  }

  /** A file of upper-case chunks comes out as it is, up to and with its IEND. */
  lemma CriticalUnchanged(d: Bytes)
    requires |d| >= 8 && d[..8] == SIGNATURE && Clean(d).Ok?
    requires forall c :: c in Parse(Body(d), true).value ==> 65 <= c.kind.a <= 90
    ensures Clean(d).value <= d && Parse(Body(Clean(d).value), true) == Parse(Body(d), true)
  {
    var chunks := Parse(Body(d), true).value;
    CleanIsFixedPoint(d);
    ParseSound(Body(d), true);
    AllKept(chunks);
    hide Parse, Concat, Kept, KindKept;
    Cut(d, 8);
    assert d == SIGNATURE + Body(d);
    assert Clean(d).value == SIGNATURE + Concat(chunks);
  }

  lemma {:induction false} AllKept(chunks: seq<Chunk>)
    requires forall c :: c in chunks ==> 65 <= c.kind.a <= 90
    ensures Kept(chunks) == chunks
  {
    if chunks != [] {
      assert chunks[0] in chunks;
      WantedExactly(chunks[0]);
      hide KindKept;
      AllKept(chunks[1..]);
      Cut(chunks, 1);
      assert chunks[..1] == [chunks[0]];
    }
  }
}
