/** `clean_webp`: the RIFF chunk walk, with EXIF and XMP dropped, VP8X corrected and the size field recomputed. */
module Webp {
  import opened Prelude

  datatype Error = RiffPastEnd | TruncatedHeader | ChunkPastEnd

  /** A chunk without its padding byte. */
  datatype Chunk = Chunk(kind: FourCC, data: Bytes)

  const VP8X := FourCC(0x56, 0x50, 0x38, 0x58)

  /** VP8 VP8L VP8X ALPH ANIM ANMF ICCP */
  const KEEP: set<FourCC> := {
    FourCC(0x56, 0x50, 0x38, 0x20), FourCC(0x56, 0x50, 0x38, 0x4C), FourCC(0x56, 0x50, 0x38, 0x58), FourCC(0x41, 0x4C, 0x50, 0x48),
    FourCC(0x41, 0x4E, 0x49, 0x4D), FourCC(0x41, 0x4E, 0x4D, 0x46), FourCC(0x49, 0x43, 0x43, 0x50)
  }

  predicate Keeps(kind: FourCC) { kind in KEEP }

  /** `b & !(EXIF_FLAG | XMP_FLAG)`: bits 2 and 3 cleared. */
  function ClearFlags(b: byte): (r: byte)
    ensures r / 4 % 4 == 0 && r / 16 == b / 16 && r % 4 == b % 4
  {
    b - b / 4 % 4 * 4
  }

  /** A kept chunk as it is written: VP8X stops claiming EXIF and XMP. */
  function Corrected(c: Chunk): Chunk {
    if c.kind == VP8X && c.data != [] then c.(data := [ClearFlags(c.data[0])] + c.data[1..]) else c
  }

  // ----- scanning

  predicate Fits(s: Bytes) { |s| >= 8 && 8 + LeValue(s[4..8]) <= |s| }

  function First(s: Bytes): Chunk
    requires Fits(s)
  {
    Chunk(Letters(s), s[8..8 + LeValue(s[4..8])])
  }

  /** What follows the first chunk and its padding byte; a missing last padding byte is tolerated. */
  function Rest(s: Bytes): (t: Bytes)
    requires Fits(s)
    ensures |t| < |s|
  {
    var end := 8 + LeValue(s[4..8]);
    var next := end + end % 2;
    if next <= |s| then s[next..] else []
  }

  /** The chunk walk over the bytes between the WEBP tag and the end the RIFF size gives. */
  function Parse(s: Bytes): Result<seq<Chunk>, Error>
    decreases |s|
  {
    if s == [] then Ok([])
    else if |s| < 8 then Err(TruncatedHeader)
    else if !Fits(s) then Err(ChunkPastEnd)
    else Prepend([First(s)], Parse(Rest(s)))
  }

  function Kept(cs: seq<Chunk>): seq<Chunk> {
    if cs == [] then [] else (if Keeps(cs[0].kind) then [Corrected(cs[0])] else []) + Kept(cs[1..])
  }

  function Pad(n: nat): Bytes { if n % 2 == 1 then [0] else [] }

  function Header(c: Chunk): Bytes { [c.kind.a, c.kind.b, c.kind.c, c.kind.d] + LeBytes(|c.data|, 4) }

  function Print(c: Chunk): Bytes { Header(c) + c.data + Pad(|c.data|) }

  function PrintAll(cs: seq<Chunk>): Bytes { if cs == [] then [] else Print(cs[0]) + PrintAll(cs[1..]) }

  const RIFF: Bytes := [0x52, 0x49, 0x46, 0x46]
  const WEBP: Bytes := [0x57, 0x45, 0x42, 0x50]

  function RiffSize(d: Bytes): nat
    requires |d| >= 12
  {
    LeValue(d[4..8])
  }

  function Chunks(d: Bytes): Result<seq<Chunk>, Error>
    requires |d| >= 12
  {
    var riff := RiffSize(d);
    if riff + 8 > |d| || riff < 4 then Err(RiffPastEnd) else Parse(d[12..riff + 8])
  }

  /** The file around `body`; the size field keeps the low 32 bits. */
  function File(body: Bytes): Bytes { RIFF + LeBytes((4 + |body|) % TWO32, 4) + WEBP + body }

  /** What `clean_webp` returns; the caller has seen the RIFF and WEBP tags, so there are twelve bytes. */
  function Clean(d: Bytes): Result<Bytes, Error>
    requires |d| >= 12
  {
    var cs := Chunks(d);
    if cs.Err? then Err(cs.error) else Ok(File(PrintAll(Kept(cs.value))))
  }

  // ----- reading back

  predicate Sized(c: Chunk) { |c.data| < TWO32 }

  predicate AllSized(cs: seq<Chunk>) { forall i :: 0 <= i < |cs| ==> Sized(cs[i]) }

  lemma FirstFacts(s: Bytes)
    requires Fits(s)
    ensures var n := |Print(First(s))|;
            && Sized(First(s)) && n >= 8 && n % 2 == 0
            && n + (|Rest(s)| + |Rest(s)| % 2) == |s| + |s| % 2
  {
    Pow256Values();
    var c := First(s);
    var n := |Print(c)|;
    assert n == 8 + |c.data| + |c.data| % 2;
    Rounded(8 + |c.data|, |s|, n, |Rest(s)|);
  }

  lemma Rounded(end: nat, size: nat, next: nat, rest: nat)
    requires end <= size && next == end + end % 2 && rest == if next <= size then size - next else 0
    ensures next % 2 == 0 && next + (rest + rest % 2) == size + size % 2
  {
  }

  lemma {:induction false} ParseSized(s: Bytes)
    requires Parse(s).Ok?
    ensures AllSized(Parse(s).value)
    decreases |s|
  {
    if s != [] {
      FirstFacts(s);
      hide First, Rest;
      ParseSized(Rest(s));
    }
  }

  lemma PrintOne(c: Chunk, tail: Bytes)
    requires Sized(c)
    ensures var s := Print(c) + tail; var n := 8 + |c.data|;
            && |s| >= n + n % 2 && Letters(s) == c.kind && LeValue(s[4..8]) == |c.data|
            && s[8..n] == c.data && s[n + n % 2..] == tail
  {
    hide LeBytes, LeValue, Pow256;
    Pow256Values();
    LeRoundTrip(|c.data|, 4);
    var kind, size, s, n := [c.kind.a, c.kind.b, c.kind.c, c.kind.d], LeBytes(|c.data|, 4), Print(c) + tail, 8 + |c.data|;
    assert |Print(c)| == n + n % 2;
    Halves(Print(c), tail);
    Within(Header(c), c.data, s);
    Within(kind, size, s);
  }

  lemma ParseOne(c: Chunk, tail: Bytes)
    requires Sized(c)
    ensures Parse(Print(c) + tail) == Prepend([c], Parse(tail))
  {
    PrintOne(c, tail);
    hide Print;
    var s := Print(c) + tail;
    assert Fits(s) && First(s) == c && Rest(s) == tail;
  }

  lemma {:induction false} ParsePrint(cs: seq<Chunk>)
    requires AllSized(cs)
    ensures Parse(PrintAll(cs)) == Ok(cs)
  {
    if cs != [] {
      ParsePrint(cs[1..]);
      ParseOne(cs[0], PrintAll(cs[1..]));
      hide Parse, Print;
      Cut(cs, 1);
      assert cs[..1] == [cs[0]];
    }
  }

  /** Allow-listed, and a VP8X header that claims neither EXIF nor XMP. */
  predicate Spotless(c: Chunk) { Keeps(c.kind) && (c.kind == VP8X && c.data != [] ==> c.data[0] / 4 % 4 == 0) }

  lemma CorrectedFacts(c: Chunk)
    ensures var k := Corrected(c);
            k.kind == c.kind && |k.data| == |c.data| && Corrected(k) == k && (Keeps(c.kind) ==> Spotless(k))
  {
    if c.kind == VP8X && c.data != [] {
      Cons(ClearFlags(c.data[0]), c.data[1..]);
    }
  }

  lemma {:induction false} KeptFacts(cs: seq<Chunk>)
    requires AllSized(cs)
    ensures AllSized(Kept(cs)) && Kept(Kept(cs)) == Kept(cs)
    ensures forall i :: 0 <= i < |Kept(cs)| ==> Spotless(Kept(cs)[i])
  {
    hide Corrected, Keeps;
    if cs != [] {
      KeptFacts(cs[1..]);
      CorrectedFacts(cs[0]);
      if Keeps(cs[0].kind) {
        Cons(Corrected(cs[0]), Kept(cs[1..]));
      } else {
        Nil(Kept(cs[1..]));
      }
    }
  }

  // ----- sizes

  lemma PrintCons(c: Chunk, cs: seq<Chunk>)
    ensures PrintAll([c] + cs) == Print(c) + PrintAll(cs)
  {
    Cons(c, cs);
  }

  lemma EvenSum(n: nat, m: nat)
    requires n % 2 == 0 && m % 2 == 0
    ensures (n + m) % 2 == 0
  {
  }

  /** Printed back, everything that was scanned fills the same room, rounded up to even. */
  lemma {:induction false} PrintTotal(s: Bytes)
    requires Parse(s).Ok?
    ensures |PrintAll(Parse(s).value)| == |s| + |s| % 2
    decreases |s|
  {
    if s != [] {
      FirstFacts(s);
      PrintTotal(Rest(s));
      hide First, Rest, Print;
      var c, cs := First(s), Parse(Rest(s)).value;
      assert Parse(s).value == [c] + cs;
      PrintCons(c, cs);
    }
  }

  predicate AllKept(cs: seq<Chunk>) { forall i :: 0 <= i < |cs| ==> Keeps(cs[i].kind) }

  lemma {:induction false} KeptTotal(cs: seq<Chunk>)
    ensures |PrintAll(Kept(cs))| % 2 == 0
    ensures AllKept(cs) ==> |PrintAll(Kept(cs))| == |PrintAll(cs)|
    ensures !AllKept(cs) ==> |PrintAll(Kept(cs))| + 8 <= |PrintAll(cs)|
  {
    hide Keeps;
    if cs != [] {
      KeptTotal(cs[1..]);
      KeptTotalOne(cs[0], cs[1..]);
      EvenSum(|Print(cs[0])|, |PrintAll(Kept(cs[1..]))|);
      hide Kept, Print;
      Cut(cs, 1);
      assert cs[..1] == [cs[0]];
      assert AllKept(cs) <==> Keeps(cs[0].kind) && AllKept(cs[1..]);
    }
  }

  lemma KeptTotalOne(c: Chunk, rest: seq<Chunk>)
    ensures var n := |Print(c)|;
            && n >= 8 && n % 2 == 0 && |PrintAll([c] + rest)| == n + |PrintAll(rest)|
            && |PrintAll(Kept([c] + rest))| == (if Keeps(c.kind) then n else 0) + |PrintAll(Kept(rest))|
  {
    CorrectedFacts(c);
    hide Corrected, Keeps;
    PrintCons(c, rest);
    Cons(c, rest);
    if Keeps(c.kind) {
      PrintCons(Corrected(c), Kept(rest));
    } else {
      Nil(Kept(rest));
    }
  }

  /** The one family the size field cannot describe: the largest RIFF size there is, with nothing dropped. */
  predicate Overflows(d: Bytes)
    requires |d| >= 12 && Chunks(d).Ok?
  {
    RiffSize(d) == TWO32 - 1 && AllKept(Chunks(d).value)
  }

  lemma BodySize(d: Bytes)
    requires |d| >= 12 && Chunks(d).Ok?
    ensures var n := 4 + |PrintAll(Kept(Chunks(d).value))|;
            n % 2 == 0 && (if Overflows(d) then n == TWO32 else n < TWO32)
  {
    var s := d[12..RiffSize(d) + 8];
    Pow256Values();
    PrintTotal(s);
    KeptTotal(Parse(s).value);
    SizeArithmetic(RiffSize(d), |PrintAll(Kept(Parse(s).value))|, AllKept(Parse(s).value));
  }

  lemma SizeArithmetic(riff: nat, kept: nat, all: bool)
    requires 4 <= riff < TWO32 && kept % 2 == 0
    requires var total := riff - 4 + (riff - 4) % 2; if all then kept == total else kept + 8 <= total
    ensures (4 + kept) % 2 == 0 && if riff == TWO32 - 1 && all then 4 + kept == TWO32 else 4 + kept < TWO32
  {
  }

  lemma FileFields(body: Bytes)
    ensures var out := File(body);
            |out| == 12 + |body| && RiffSize(out) == (4 + |body|) % TWO32 && out[12..] == body
  {
    Pow256Values();
    LeRoundTrip((4 + |body|) % TWO32, 4);
    var size := LeBytes((4 + |body|) % TWO32, 4);
    var out := File(body);
    assert out[4..8] == size;
    Halves(RIFF + size + WEBP, body);
  }

  lemma ReadsBack(kept: seq<Chunk>)
    requires 4 + |PrintAll(kept)| < TWO32 && Parse(PrintAll(kept)) == Ok(kept)
    ensures var out := File(PrintAll(kept));
            |out| == 12 + |PrintAll(kept)| && RiffSize(out) == |out| - 8 && Chunks(out) == Ok(kept)
  {
    hide Parse, PrintAll;
    FileFields(PrintAll(kept));
    var out := File(PrintAll(kept));
    hide File, RiffSize;
    assert out[12..|out|] == out[12..];
  }

  /** Unless the size overflows, the output is well formed (RIFF size is the length less eight, and even; only
      allow-listed chunks in input order; VP8X claims nothing that is gone) and cleans to itself. */
  lemma CleanIsFixedPoint(d: Bytes)
    requires |d| >= 12 && Clean(d).Ok? && !Overflows(d)
    ensures var out := Clean(d).value;
            && |out| >= 12 && RiffSize(out) == |out| - 8 && |out| % 2 == 0
            && Chunks(out) == Ok(Kept(Chunks(d).value))
            && (forall i :: 0 <= i < |Chunks(out).value| ==> Spotless(Chunks(out).value[i]))
            && Clean(out) == Ok(out)
  {
    var cs := Chunks(d).value;
    BodySize(d);
    ParseSized(d[12..RiffSize(d) + 8]);
    KeptFacts(cs);
    ParsePrint(Kept(cs));
    var body := PrintAll(Kept(cs));
    EvenSum(4 + |body|, 8);
    hide Parse, Kept, PrintAll, Spotless, File, RiffSize, LeValue, Overflows;
    ReadsBack(Kept(cs));
  }

  /** When it overflows, the size field reads zero and the output is not a file the cleaner takes. */
  lemma OverflowIsRefused(d: Bytes)
    requires |d| >= 12 && Clean(d).Ok? && Overflows(d)
    ensures |Clean(d).value| >= 12 && Clean(Clean(d).value) == Err(RiffPastEnd)
  {
    BodySize(d);
    var body := PrintAll(Kept(Chunks(d).value));
    FileFields(body);
    hide Parse, Kept, PrintAll, File, RiffSize;
    assert (4 + |body|) % TWO32 == 0;
  }

  /** Hence, for every accepted input: a fixed point exactly when the size does not overflow. */
  lemma FixedPointExactly(d: Bytes)
    requires |d| >= 12 && Clean(d).Ok?
    ensures |Clean(d).value| >= 12
    ensures Clean(Clean(d).value) == Clean(d) <==> !Overflows(d)
  {
    if Overflows(d) {
      OverflowIsRefused(d);
    } else {
      CleanIsFixedPoint(d);
    }
  }

  lemma HeaderFields(c: Chunk)
    requires |c.data| < TWO32
    ensures var s := Header(c) + c.data;
            Letters(s) == c.kind && LeValue(s[4..8]) == |c.data| && s[8..8 + |c.data|] == c.data && |s| == 8 + |c.data|
  {
    hide LeBytes, LeValue, Pow256;
    Pow256Values();
    LeRoundTrip(|c.data|, 4);
    var kind, size := [c.kind.a, c.kind.b, c.kind.c, c.kind.d], LeBytes(|c.data|, 4);
    Within(kind, size, Header(c) + c.data);
    Halves(Header(c), c.data);
  }

  /** A last chunk may lack its padding byte. */
  lemma UnpaddedLast(c: Chunk)
    requires |c.data| < TWO32 && |c.data| % 2 == 1
    ensures Parse(Header(c) + c.data) == Ok([c])
  {
    HeaderFields(c);
    hide Header, LeValue, Letters;
    var s := Header(c) + c.data;
    assert First(s) == c && Rest(s) == [];
    assert Parse([]) == Ok([]);
    Nil([c]);
  }

  /** A four-gigabyte file of one unpadded VP8 chunk: accepted, and overflowing. */
  lemma OverflowExists(data: Bytes)
    requires |data| == TWO32 - 13
    ensures var c := Chunk(FourCC(0x56, 0x50, 0x38, 0x20), data);
            var d := RIFF + LeBytes(TWO32 - 1, 4) + WEBP + (Header(c) + data);
            |d| >= 12 && Clean(d).Ok? && Overflows(d)
  {
    hide LeBytes, LeValue, Pow256, Parse;
    var c := Chunk(FourCC(0x56, 0x50, 0x38, 0x20), data);
    var s, size := Header(c) + data, LeBytes(TWO32 - 1, 4);
    var front := RIFF + size + WEBP;
    var d := front + s;
    Pow256Values();
    LeRoundTrip(TWO32 - 1, 4);
    Halves(front, s);
    Within(RIFF, size, d);
    assert d[12..TWO32 + 7] == d[12..];
    UnpaddedLast(c);
  }

  // ----- the loop

  lemma {:induction false} KeptAppend(cs: seq<Chunk>, c: Chunk)
    ensures PrintAll(Kept(cs + [c])) == PrintAll(Kept(cs)) + if Keeps(c.kind) then Print(Corrected(c)) else []
  {
    hide Corrected, Print, Keeps;
    if cs == [] {
      Nil([c]);
      Nil(if Keeps(c.kind) then Print(Corrected(c)) else []);
      assert Kept([c]) == if Keeps(c.kind) then [Corrected(c)] else [];
    } else {
      KeptAppend(cs[1..], c);
      Tail(cs, [c]);
      var k := if Keeps(c.kind) then Print(Corrected(c)) else [];
      if Keeps(cs[0].kind) {
        Cons(Corrected(cs[0]), Kept(cs[1..]));
        Cons(Corrected(cs[0]), Kept(cs[1..] + [c]));
        Assoc(Print(Corrected(cs[0])), PrintAll(Kept(cs[1..])), k);
      } else {
        Nil(Kept(cs[1..]));
        Nil(Kept(cs[1..] + [c]));
      }
    }
  }

  function ParseFrom(d: Bytes, i: nat, end: nat): Result<seq<Chunk>, Error>
    requires end <= |d|
  {
    Parse(if i <= end then d[i..end] else [])
  }

  /** The header of the chunk at `i`, read in the file or in the slice from there. */
  lemma HeaderOfSlice(d: Bytes, i: nat, end: nat)
    requires i + 8 <= end <= |d|
    ensures var s, header := d[i..end], d[i..i + 8];
            s[4..8] == header[4..8] == d[i + 4..i + 8] && Letters(s) == Letters(header)
  {
    Sub(d, i, end, 4, 8);
    Sub(d, i, i + 8, 4, 8);
  }

  lemma SliceOfSlice(d: Bytes, i: nat, end: nat)
    requires i + 8 <= end <= |d|
    ensures var s, header := d[i..end], d[i..i + 8];
            var len := LeValue(header[4..8]);
            && s[4..8] == header[4..8] && Letters(s) == Letters(header)
            && (Fits(s) <==> i + 8 + len <= end)
            && (Fits(s) ==> First(s) == Chunk(Letters(header), d[i + 8..i + 8 + len]))
            && (Fits(s) ==> var next := i + 8 + len + len % 2; Rest(s) == if next <= end then d[next..end] else [])
  {
    hide LeValue, Letters, Pow256;
    HeaderOfSlice(d, i, end);
    var s, header := d[i..end], d[i..i + 8];
    var len := LeValue(header[4..8]);
    if Fits(s) {
      Sub(d, i, end, 8, 8 + len);
      var next := i + 8 + len + len % 2;
      if next <= end { Sub(d, i, end, next - i, end - i); }
    }
  }

  lemma ParseAt(d: Bytes, i: nat, end: nat)
    requires i < end <= |d|
    ensures ParseFrom(d, i, end) ==
            if i + 8 > end then Err(TruncatedHeader)
            else
              var header := d[i..i + 8];
              var len := LeValue(header[4..8]);
              if i + 8 + len > end then Err(ChunkPastEnd)
              else Prepend([Chunk(Letters(header), d[i + 8..i + 8 + len])], ParseFrom(d, i + 8 + len + len % 2, end))
  {
    assert |d[i..end]| == end - i;
    if i + 8 <= end {
      SliceOfSlice(d, i, end);
      hide LeValue, First, Rest, Letters, Fits;
    }
  }

  /** Header and bounds of the chunk at `i`, and where the next one starts. */
  method ReadChunk(d: Bytes, i: nat, end: nat) returns (read: Result<Chunk, Error>, next: nat)
    requires i < end <= |d|
    ensures read.Err? ==> ParseFrom(d, i, end) == Err(read.error)
    ensures read.Ok? ==> i < next && ParseFrom(d, i, end) == Prepend([read.value], ParseFrom(d, next, end))
    ensures read.Ok? ==> i + 8 <= |d| && d[i..i + 8] == Header(read.value)
  {
    hide ParseFrom, LeValue, Header, Prepend, Letters, Pow256;
    ParseAt(d, i, end);
    next := i;
    if i + 8 > end { read := Err(TruncatedHeader); return; }
    var header := d[i..i + 8];
    var len := LeValue(header[4..8]);
    var dataEnd := i + 8 + len;
    if dataEnd > end { read := Err(ChunkPastEnd); return; }
    next := dataEnd + len % 2;
    read := Ok(Chunk(Letters(header), d[i + 8..dataEnd]));
    HeaderBytes(header, read.value);
  }

  lemma HeaderBytes(header: Bytes, c: Chunk)
    requires |header| == 8 && c.kind == Letters(header) && |c.data| == LeValue(header[4..8])
    ensures header == Header(c)
  {
    LeCanonical(header[4..8]);
    Cut(header, 4);
    assert header[..4] == [header[0], header[1], header[2], header[3]];
  }

  lemma UpdateBehind(a: Bytes, b: Bytes, x: byte)
    requires b != []
    ensures (a + b)[|a|] == b[0] && (a + b)[|a| := x] == a + b[0 := x]
  {
  }

  /** A kept chunk is copied, its VP8X flags cleared in place and its padding byte restored. */
  method TakeChunk(out: Bytes, header: Bytes, c: Chunk) returns (more: Bytes)
    requires header == Header(c)
    ensures more == out + if Keeps(c.kind) then Print(Corrected(c)) else []
  {
    hide Keeps;
    ghost var data := Corrected(c).data;
    CorrectedPrints(c);
    hide Header, Print, LeBytes;
    more := out;
    if Keeps(c.kind) {
      more := more + header;
      var at := |more|;
      more := more + c.data;
      if c.kind == VP8X && |c.data| >= 1 {
        UpdateBehind(out + header, c.data, ClearFlags(c.data[0]));
        more := more[at := ClearFlags(more[at])];
      }
      assert more == (out + header) + data;
      hide Corrected;
      Assoc(out, header, data);
      Assoc(out, header + data, Pad(|c.data|));
      more := more + Pad(|c.data|);
    } else {
      Nil(out);
    }
  }

  lemma CorrectedPrints(c: Chunk)
    ensures Print(Corrected(c)) == (Header(c) + Corrected(c).data) + Pad(|c.data|)
  {
  }

  lemma CleanIs(d: Bytes)
    requires |d| >= 12 && 4 <= RiffSize(d) <= |d| - 8
    ensures var all := ParseFrom(d, 12, RiffSize(d) + 8);
            && Clean(d) == (if all.Err? then Err(all.error) else Ok(File(PrintAll(Kept(all.value)))))
            && Prepend([], all) == all && PrintAll(Kept([])) == []
            && ParseFrom(d, |d| + 1, RiffSize(d) + 8) == Ok([])
  {
    var all := ParseFrom(d, 12, RiffSize(d) + 8);
    if all.Ok? { Nil(all.value); }
  }

  lemma ParseDone(d: Bytes, i: nat, end: nat, done: seq<Chunk>)
    requires end <= i && end <= |d|
    ensures Prepend(done, ParseFrom(d, i, end)) == Ok(done)
  {
    Nil(done);
  }

  /** `clean_webp`. */
  method CleanWebp(d: Bytes) returns (r: Result<Bytes, Error>)
    requires |d| >= 12
    ensures r == Clean(d)
  {
    var riff := LeValue(d[4..8]);
    if riff + 8 > |d| || riff < 4 { return Err(RiffPastEnd); }
    var end := riff + 8;
    CleanIs(d);
    hide ParseFrom, Clean, Kept, PrintAll, File;
    var body: Bytes := [];
    var i: nat := 12;
    ghost var done: seq<Chunk> := [];
    while i < end
      invariant ParseFrom(d, 12, end) == Prepend(done, ParseFrom(d, i, end))
      invariant body == PrintAll(Kept(done))
    {
      var read, next := ReadChunk(d, i, end);
      if read.Err? { return Err(read.error); }
      KeptAppend(done, read.value);
      body := TakeChunk(body, d[i..i + 8], read.value);
      Advance(done, read.value, ParseFrom(d, next, end));
      done := done + [read.value];
      i := next;
    }
    ParseDone(d, i, end, done);
    var out := WithSize(body);
    return Ok(out);
  }

  /** The twelve bytes in front, with the size patched in once it is known. */
  method WithSize(body: Bytes) returns (out: Bytes)
    ensures out == File(body)
  {
    out := RIFF + [0, 0, 0, 0] + WEBP + body;
    var size := LeBytes((|out| - 8) % TWO32, 4);
    out := out[..4] + size + out[8..];
    assert out == File(body);
  }

  // ----- what is kept, letter by letter

  /** VP8 VP8L VP8X, ALPH, ANIM ANMF, ICCP. */
  predicate Wanted(c: Chunk) {
    var k := c.kind;
    || (k.a == 0x56 && k.b == 0x50 && k.c == 0x38 && (k.d == 0x20 || k.d == 0x4C || k.d == 0x58))
    || (k.a == 0x41 && k.b == 0x4C && k.c == 0x50 && k.d == 0x48)
    || (k.a == 0x41 && k.b == 0x4E && ((k.c == 0x49 && k.d == 0x4D) || (k.c == 0x4D && k.d == 0x46)))
    || (k.a == 0x49 && k.b == 0x43 && k.c == 0x43 && k.d == 0x50)
  }

  /** The same chunk, but for the two flags of a VP8X. */
  predicate SameButFlags(c: Chunk, k: Chunk) {
    && k.kind == c.kind && |k.data| == |c.data| && (forall i :: 0 < i < |c.data| ==> k.data[i] == c.data[i])
    && (c.data != [] ==>
          if c.kind == FourCC(0x56, 0x50, 0x38, 0x58)
          then k.data[0] % 4 == c.data[0] % 4 && k.data[0] / 4 % 4 == 0 && k.data[0] / 16 == c.data[0] / 16
          else k.data[0] == c.data[0])
  }

  lemma CorrectedExactly(c: Chunk)
    ensures SameButFlags(c, Corrected(c)) && (Keeps(c.kind) <==> Wanted(c))
  {
  }

  /** The chunks left are the input's wanted chunks, in order, the same but for the flags of a VP8X. */
  lemma {:induction false} KeptExactly(cs: seq<Chunk>)
    ensures var w := Filter(cs, Wanted);
            |Kept(cs)| == |w| && forall i :: 0 <= i < |w| ==> SameButFlags(w[i], Kept(cs)[i])
  {
    hide Keeps, Wanted, SameButFlags, Corrected;
    if cs != [] {
      CorrectedExactly(cs[0]);
      KeptExactly(cs[1..]);
      if Keeps(cs[0].kind) {
        var k, w := Kept(cs[1..]), Filter(cs[1..], Wanted);
        Cons(Corrected(cs[0]), k);
        Cons(cs[0], w);
        assert Kept(cs) == [Corrected(cs[0])] + k && Filter(cs, Wanted) == [cs[0]] + w;
        assert forall i :: 0 < i < |w| + 1 ==> ([Corrected(cs[0])] + k)[i] == k[i - 1] && ([cs[0]] + w)[i] == w[i - 1];
      } else {
        Nil(Kept(cs[1..]));
        Nil(Filter(cs[1..], Wanted));
      }
    }
  }
}
