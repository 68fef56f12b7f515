/** Which files the three scanners accept, and what they take them for: the grammars, spelled out byte by byte. */
module Grammars {
  import opened Prelude
  import J = Jpeg
  import P = Png
  import W = Webp

  // ----- JPEG

  predicate RestartByte(b: byte) { 0xD0 <= b <= 0xD7 }

  /** In entropy-coded data 0xFF comes only before a zero, a restart marker or another 0xFF, or at the end. */
  predicate RunLegal(run: Bytes) {
    forall i :: 0 <= i < |run| - 1 && run[i] == 0xFF ==> run[i + 1] == 0x00 || RestartByte(run[i + 1]) || run[i + 1] == 0xFF
  }

  predicate DataLegal(data: Bytes) { |data| >= 2 && 256 * (data[0] as int) + data[1] as int == |data| }

  predicate Legal(p: J.Piece) {
    match p
    case Standalone(_, m) => m == 0x01 || RestartByte(m)
    case Segment(_, m, data) => m !in {0x00, 0x01, 0xD8, 0xD9, 0xDA, 0xFF} && !RestartByte(m) && DataLegal(data)
    case Scan(_, data, run) => DataLegal(data) && RunLegal(run)
    case End(_) => true
  }

  /** Legal pieces, the end of the image last and nowhere else, and after a scan neither fill bytes nor a restart marker, which
      belong to its run. */
  predicate JpegLegal(ps: seq<J.Piece>) {
    && ps != [] && (forall i :: 0 <= i < |ps| ==> Legal(ps[i]) && (ps[i].End? <==> i == |ps| - 1))
    && (forall i :: 0 <= i < |ps| - 1 && ps[i].Scan? ==> ps[i + 1].fill == 0 && !(ps[i + 1].Standalone? && RestartByte(ps[i + 1].marker)))
  }

  lemma {:induction false} RunOkExactly(run: Bytes)
    ensures J.RunOk(run) <==> RunLegal(run)
    decreases |run|
  {
    if |run| >= 2 {
      var k := if run[0] == 0xFF && run[1] != 0xFF then 2 else 1;
      RunOkExactly(run[k..]);
      var rest := run[k..];
      assert forall i :: 0 <= i < |rest| ==> rest[i] == run[i + k];
      if RunLegal(rest) && (run[0] == 0xFF ==> run[1] == 0x00 || RestartByte(run[1]) || run[1] == 0xFF) {
        forall i | 0 <= i < |run| - 1 && run[i] == 0xFF ensures run[i + 1] == 0x00 || RestartByte(run[i + 1]) || run[i + 1] == 0xFF {
          if i >= k { assert rest[i - k] == 0xFF; }
        }
      }
    }
  }

  lemma PieceOkExactly(p: J.Piece)
    ensures J.PieceOk(p) <==> Legal(p)
  {
    if p.Scan? { RunOkExactly(p.run); }
    hide J.RunOk, RunLegal;
  }

  /** The pieces are legal one by one. */
  lemma {:induction false} WellFormedExactly(ps: seq<J.Piece>)
    ensures J.WellFormed(ps) <==> ps != [] && forall i :: 0 <= i < |ps| ==> Legal(ps[i]) && (ps[i].End? <==> i == |ps| - 1)
    decreases |ps|
  {
    hide Legal, J.PieceOk;
    if ps != [] {
      var rest := ps[1..];
      PieceOkExactly(ps[0]);
      WellFormedExactly(rest);
      assert forall i :: 0 <= i < |rest| ==> rest[i] == ps[i + 1];
      if rest != [] && Legal(ps[0]) && !ps[0].End? && J.WellFormed(rest) {
        forall i | 0 <= i < |ps| ensures Legal(ps[i]) && (ps[i].End? <==> i == |ps| - 1) { if i > 0 { assert ps[i] == rest[i - 1]; } }
      }
      if |ps| == 1 { assert J.WellFormed(ps) <==> Legal(ps[0]) && ps[0].End?; }
    }
  }

  lemma {:induction false} FillOf(n: nat, m: byte, t: Bytes)
    requires m != 0xFF
    ensures var s := J.FFs(n) + ([0xFF, m] + t); |s| == n + 2 + |t| && J.Fill(s) == n + 1 && s[0] == 0xFF && s[n + 1] == m && s[n + 2..] == t
  {
    var s := J.FFs(n) + ([0xFF, m] + t);
    if n > 0 {
      FillOf(n - 1, m, t);
      assert s[1..] == J.FFs(n - 1) + ([0xFF, m] + t);
      assert s[n + 1] == s[1..][n] && s[n + 2..] == s[1..][n + 1..];
    } else {
      Nil([0xFF, m] + t);
      assert s[1..][0] == m;
      assert J.Fill(s[1..]) == 0;
    }
  }

  lemma FilledMarker(fill: nat, m: byte, t: Bytes)
    requires m != 0xFF
    ensures J.Parse(J.FFs(fill) + ([0xFF, m] + t)) == J.ParseMarker(fill, m, t)
  {
    FillOf(fill, m, t);
    hide J.FFs, J.Fill, J.ParseMarker;
  }

  lemma SegmentAgain(fill: nat, m: byte, data: Bytes, tail: Bytes)
    requires J.SegmentMarker(m) && J.DataOk(data)
    ensures J.ParseMarker(fill, m, data + tail) == Prepend([J.Segment(fill, m, data)], J.Parse(tail))
  {
    Halves(data, tail);
    hide J.Parse;
  }

  lemma ScanAgain(fill: nat, data: Bytes, run: Bytes, tail: Bytes)
    requires J.DataOk(data) && J.RunLength(run + tail) == Some(|run|)
    ensures J.ParseMarker(fill, 0xDA, data + (run + tail)) == Prepend([J.Scan(fill, data, run)], J.Parse(tail))
  {
    Halves(data, run + tail);
    Halves(run, tail);
    hide J.Parse, J.RunLength;
  }

  /** One piece in front of what follows it. */
  lemma PieceAgain(p: J.Piece, tail: Bytes)
    requires J.PieceOk(p)
    requires p.Scan? ==> |tail| >= 2 && tail[0] == 0xFF && !J.Restart(tail[1]) && tail[1] !in {0x00, 0xFF}
    ensures J.Parse(J.Raw(p) + tail) == if p.End? then Ok([p]) else Prepend([p], J.Parse(tail))
  {
    var f := J.FFs(p.fill);
    hide J.FFs, J.Parse, J.ParseMarker, J.RunLength, J.RunOk;
    match p {
      case Standalone(_, m) =>
        Assoc(f, [0xFF, m], tail);
        FilledMarker(p.fill, m, tail);
        MarkerAlone(p.fill, m, tail);
      case Segment(_, m, data) =>
        Assoc(f, [0xFF, m] + data, tail);
        Assoc([0xFF, m], data, tail);
        FilledMarker(p.fill, m, data + tail);
        SegmentAgain(p.fill, m, data, tail);
      case Scan(_, data, run) =>
        Assoc(f, [0xFF, 0xDA] + data + run, tail);
        Assoc([0xFF, 0xDA] + data, run, tail);
        Assoc([0xFF, 0xDA], data, run + tail);
        FilledMarker(p.fill, 0xDA, data + (run + tail));
        J.RunLengthOfRun(run, tail);
        ScanAgain(p.fill, data, run, tail);
      case End(_) =>
        Assoc(f, [0xFF, 0xD9], tail);
        FilledMarker(p.fill, 0xD9, tail);
        MarkerAlone(p.fill, 0xD9, tail);
    }
  }

  lemma MarkerAlone(fill: nat, m: byte, t: Bytes)
    ensures m == 0xD9 ==> J.ParseMarker(fill, m, t) == Ok([J.End(fill)])
    ensures J.StandaloneMarker(m) ==> J.ParseMarker(fill, m, t) == Prepend([J.Standalone(fill, m)], J.Parse(t))
  {
    hide J.Parse;
  }

  /** What follows a scan starts with a marker that ends its run. */
  lemma RawStart(ps: seq<J.Piece>, tail: Bytes)
    requires ps != [] && J.PieceOk(ps[0]) && ps[0].fill == 0 && !(ps[0].Standalone? && J.Restart(ps[0].marker))
    ensures var s := J.RawAll(ps) + tail; |s| >= 2 && s[0] == 0xFF && !J.Restart(s[1]) && s[1] !in {0x00, 0xFF}
  {
    assert J.FFs(0) == [];
    Nil(J.Print(ps[0]));
    var raw := J.Print(ps[0]);
    assert |raw| >= 2 && raw[0] == 0xFF;
    assert J.RawAll(ps) == raw + J.RawAll(ps[1..]);
    hide J.RawAll, J.RunOk, J.FFs;
  }

  lemma ConsParses(p: J.Piece, rest: seq<J.Piece>, tail: Bytes)
    requires J.PieceOk(p) && (p.End? ==> rest == []) && (!p.End? ==> J.Parse(J.RawAll(rest) + tail) == Ok(rest))
    requires p.Scan? ==> rest != [] && J.PieceOk(rest[0]) && rest[0].fill == 0 && !(rest[0].Standalone? && J.Restart(rest[0].marker))
    ensures J.Parse(J.RawAll([p] + rest) + tail) == Ok([p] + rest)
  {
    Cons(p, rest);
    assert J.RawAll([p] + rest) == J.Raw(p) + J.RawAll(rest);
    assert J.RawAll([]) == [];
    hide J.RawAll, J.PieceOk, J.Parse, J.Raw;
    if p.Scan? { RawStart(rest, tail); }
    Assoc(J.Raw(p), J.RawAll(rest), tail);
    Nil(tail);
    PieceAgain(p, J.RawAll(rest) + tail);
    Nil([p]);
  }

  lemma {:induction false} RawParses(ps: seq<J.Piece>, tail: Bytes)
    requires JpegLegal(ps)
    ensures J.Parse(J.RawAll(ps) + tail) == Ok(ps)
    decreases |ps|
  {
    hide Legal, J.PieceOk, J.Parse, J.RawAll;
    var p, rest := ps[0], ps[1..];
    PieceOkExactly(p);
    assert p.End? <==> 0 == |ps| - 1;
    assert forall i :: 0 <= i < |rest| ==> rest[i] == ps[i + 1];
    if rest != [] {
      PieceOkExactly(rest[0]);
      RawParses(rest, tail);
    }
    ConsParses(p, rest, tail);
    Cut(ps, 1);
    assert ps[..1] == [p];
  }

  /** A marker without fill bytes gives a piece without fill bytes. */
  lemma FirstPiece(s: Bytes)
    requires J.Parse(s).Ok? && |s| >= 2 && s[0] == 0xFF && s[1] != 0xFF
    ensures var ps := J.Parse(s).value; ps != [] && ps[0].fill == 0 && (ps[0].Standalone? ==> ps[0].marker == s[1])
  {
    assert s[1..][0] == s[1];
    assert J.Fill(s[1..]) == 0 && J.Fill(s) == 1;
  }

  predicate Spaced(ps: seq<J.Piece>) {
    forall i :: 0 <= i < |ps| - 1 && ps[i].Scan? ==> ps[i + 1].fill == 0 && !(ps[i + 1].Standalone? && RestartByte(ps[i + 1].marker))
  }

  lemma SpacedCons(p: J.Piece, ps: seq<J.Piece>)
    requires Spaced(ps) && (p.Scan? && ps != [] ==> ps[0].fill == 0 && !(ps[0].Standalone? && RestartByte(ps[0].marker)))
    ensures Spaced([p] + ps)
  {
    var all := [p] + ps;
    forall i | 0 <= i < |all| - 1 && all[i].Scan?
      ensures all[i + 1].fill == 0 && !(all[i + 1].Standalone? && RestartByte(all[i + 1].marker))
    {
      if i > 0 { assert all[i] == ps[i - 1] && all[i + 1] == ps[i]; }
    }
  }

  lemma {:induction false} ParseSpaced(s: Bytes)
    requires J.Parse(s).Ok?
    ensures Spaced(J.Parse(s).value)
    decreases |s|, 0
  {
    var k := J.Fill(s);
    hide Spaced, J.ParseMarker;
    MarkerSpaced(k - 1, s[k], s[k + 1..]);
  }

  lemma {:induction false} MarkerSpaced(fill: nat, m: byte, t: Bytes)
    requires J.ParseMarker(fill, m, t).Ok?
    ensures Spaced(J.ParseMarker(fill, m, t).value)
    decreases |t|, 1
  {
    hide J.Parse;
    if m != 0xD9 {
      if J.StandaloneMarker(m) {
        ParseSpaced(t);
        SpacedCons(J.Standalone(fill, m), J.Parse(t).value);
      } else {
        var len := J.Be16(t[0], t[1]);
        var u := t[len..];
        if m != 0xDA {
          ParseSpaced(u);
          SpacedCons(J.Segment(fill, m, t[..len]), J.Parse(u).value);
        } else {
          var n := J.RunLength(u).value;
          J.RunLengthOk(u);
          ParseSpaced(u[n..]);
          FirstPiece(u[n..]);
          SpacedCons(J.Scan(fill, t[..len], u[..n]), J.Parse(u[n..]).value);
        }
      }
    }
  }

  /** The scanner finds these pieces if and only if they are legal and, written with their fill bytes, start the input: whatever
      comes after the end of the image does not matter, and no input is cut up in two ways. */
  lemma JpegExactly(s: Bytes, ps: seq<J.Piece>)
    ensures J.Parse(s) == Ok(ps) <==> JpegLegal(ps) && J.RawAll(ps) <= s
  {
    hide Legal, J.RawAll, J.WellFormed, J.Parse, JpegLegal;
    if J.Parse(s) == Ok(ps) {
      J.ParseWellFormed(s);
      J.ParseSound(s);
      ParseSpaced(s);
      LegalIs(ps);
    }
    if JpegLegal(ps) && J.RawAll(ps) <= s {
      var raw := J.RawAll(ps);
      RawParses(ps, s[|raw|..]);
      Cut(s, |raw|);
      assert s[..|raw|] == raw;
    }
  }

  lemma LegalIs(ps: seq<J.Piece>)
    requires J.WellFormed(ps) && Spaced(ps)
    ensures JpegLegal(ps)
  {
    WellFormedExactly(ps);
    hide Legal, J.WellFormed;
  }

  lemma RawIsLong(ps: seq<J.Piece>)
    requires ps != []
    ensures |J.RawAll(ps)| >= 2
  {
    hide J.FFs;
  }

  /** `clean_jpeg` accepts exactly the files that start with a start-of-image marker and legal pieces. */
  lemma JpegAccepts(d: Bytes)
    ensures J.Clean(d).Ok? <==>
            |d| >= 2 && d[0] == 0xFF && d[1] == 0xD8 && exists ps :: JpegLegal(ps) && J.RawAll(ps) <= d[2..]
  {
    hide Legal, J.RawAll, J.Parse, J.Assembled;
    if |d| >= 2 {
      forall ps ensures J.Parse(d[2..]) == Ok(ps) <==> JpegLegal(ps) && J.RawAll(ps) <= d[2..] { JpegExactly(d[2..], ps); }
      forall ps | JpegLegal(ps) ensures |J.RawAll(ps)| >= 2 { RawIsLong(ps); }
      if J.Parse(d[2..]).Ok? { assert JpegLegal(J.Parse(d[2..]).value); }
    }
  }

  // ----- PNG

  predicate ChunkLegal(c: P.Chunk) {
    && |c.bytes| >= 12 && |c.bytes| == 12 + 0x100_0000 * (c.bytes[0] as int) + 0x1_0000 * (c.bytes[1] as int) + 0x100 * (c.bytes[2] as int) + c.bytes[3] as int
    && c.kind == FourCC(c.bytes[4], c.bytes[5], c.bytes[6], c.bytes[7])
  }

  predicate IsEnd(c: P.Chunk) { c.kind == FourCC(0x49, 0x45, 0x4E, 0x44) }

  /** Whole chunks, IEND last and nowhere else. */
  predicate PngLegal(cs: seq<P.Chunk>) {
    cs != [] && forall i :: 0 <= i < |cs| ==> ChunkLegal(cs[i]) && (IsEnd(cs[i]) <==> i == |cs| - 1)
  }

  lemma {:induction false} PngWellFormed(cs: seq<P.Chunk>)
    ensures P.WellFormed(cs) <==> PngLegal(cs)
    decreases |cs|
  {
    if cs != [] {
      var rest := cs[1..];
      PngWellFormed(rest);
      assert P.Whole(cs[0]) <==> ChunkLegal(cs[0]);
      assert forall i :: 0 <= i < |rest| ==> rest[i] == cs[i + 1];
      hide P.Whole, ChunkLegal;
      if ChunkLegal(cs[0]) && !IsEnd(cs[0]) && PngLegal(rest) {
        forall i | 0 <= i < |cs| ensures ChunkLegal(cs[i]) && (IsEnd(cs[i]) <==> i == |cs| - 1) { if i > 0 { assert cs[i] == rest[i - 1]; } }
      }
    }
  }

  lemma {:induction false} ConcatParses(cs: seq<P.Chunk>, tail: Bytes, first: bool)
    requires P.WellFormed(cs) && (first ==> cs[0].kind == P.IHDR)
    ensures P.Parse(P.Concat(cs) + tail, first) == Ok(cs)
    decreases |cs|
  {
    var rest := cs[1..];
    Assoc(cs[0].bytes, P.Concat(rest), tail);
    P.ParseOne(cs[0], P.Concat(rest) + tail, first);
    hide P.Parse, P.Whole;
    Cut(cs, 1);
    assert cs[..1] == [cs[0]];
    if cs[0].kind == P.IEND { assert cs == [cs[0]]; } else { ConcatParses(rest, tail, false); }
  }

  /** `clean_png` accepts a file if and only if, after its signature, it starts with whole chunks, IHDR first, IEND last, and then
      takes it for these. */
  lemma PngExactly(s: Bytes, cs: seq<P.Chunk>)
    ensures P.Parse(s, true) == Ok(cs) <==>
            PngLegal(cs) && cs[0].kind == FourCC(0x49, 0x48, 0x44, 0x52) && P.Concat(cs) <= s
  {
    hide ChunkLegal, IsEnd, P.Concat, P.WellFormed, P.Parse;
    PngWellFormed(cs);
    if P.Parse(s, true) == Ok(cs) {
      P.ParseSound(s, true);
      P.ParseWellFormed(s, true);
    }
    if PngLegal(cs) && cs[0].kind == P.IHDR && P.Concat(cs) <= s {
      var all := P.Concat(cs);
      ConcatParses(cs, s[|all|..], true);
      Cut(s, |all|);
      assert s[..|all|] == all;
    }
  }

  // ----- WebP

  /** Chunks as they may stand in a file, each with the padding bytes it comes with. */
  function Laid(cs: seq<W.Chunk>, pads: seq<Bytes>): Bytes
    requires |pads| == |cs|
  {
    if cs == [] then []
    else
      [cs[0].kind.a, cs[0].kind.b, cs[0].kind.c, cs[0].kind.d] + LeBytes(|cs[0].data|, 4) + cs[0].data + pads[0] + Laid(cs[1..], pads[1..])
  }

  /** One byte of any value after an odd chunk, which may be missing after the last. */
  predicate PadsFit(cs: seq<W.Chunk>, pads: seq<Bytes>) {
    |pads| == |cs| && forall i :: 0 <= i < |cs| ==> |pads[i]| == |cs[i].data| % 2 || (i == |cs| - 1 && pads[i] == [])
  }

  lemma LaidOne(c: W.Chunk, pad: Bytes, tail: Bytes)
    requires W.Sized(c) && (|pad| == |c.data| % 2 || (tail == [] && pad == []))
    ensures var s := [c.kind.a, c.kind.b, c.kind.c, c.kind.d] + LeBytes(|c.data|, 4) + c.data + pad + tail;
            W.Fits(s) && W.First(s) == c && W.Rest(s) == tail
  {
    hide LeBytes, LeValue, Pow256;
    Pow256Values();
    LeRoundTrip(|c.data|, 4);
    var kind, size := [c.kind.a, c.kind.b, c.kind.c, c.kind.d], LeBytes(|c.data|, 4);
    var s, n := kind + size + c.data + pad + tail, 8 + |c.data|;
    Halves(kind + size + c.data + pad, tail);
    Within(kind + size, c.data, s);
    Within(kind, size, s);
    assert s[4..8] == size && s[8..n] == c.data;
    assert Letters(s) == c.kind;
  }

  lemma {:induction false} LaidParses(cs: seq<W.Chunk>, pads: seq<Bytes>)
    requires W.AllSized(cs) && PadsFit(cs, pads)
    ensures W.Parse(Laid(cs, pads)) == Ok(cs)
    decreases |cs|
  {
    if cs != [] {
      var tail := Laid(cs[1..], pads[1..]);
      assert |cs| == 1 ==> tail == [];
      assert PadsFit(cs[1..], pads[1..]) && W.AllSized(cs[1..]);
      LaidParses(cs[1..], pads[1..]);
      LaidOne(cs[0], pads[0], tail);
      Cut(cs, 1);
      assert cs[..1] == [cs[0]];
      hide W.Fits, W.First, W.Rest, LeBytes;
    }
  }

  /** The padding that stands behind the first chunk. */
  lemma OneLaid(s: Bytes) returns (pad: Bytes)
    requires W.Fits(s)
    ensures var c := W.First(s);
            && s == [c.kind.a, c.kind.b, c.kind.c, c.kind.d] + LeBytes(|c.data|, 4) + c.data + pad + W.Rest(s)
            && (|pad| == |c.data| % 2 || (W.Rest(s) == [] && pad == []))
  {
    hide LeBytes, LeValue;
    LeCanonical(s[4..8]);
    var end := 8 + LeValue(s[4..8]);
    var next := end + end % 2;
    pad := if next <= |s| then s[end..next] else [];
    assert s[end..] == pad + W.Rest(s);
    assert s[..4] == [s[0], s[1], s[2], s[3]];
    FourParts(s, end, pad, W.Rest(s));
  }

  lemma FourParts(s: Bytes, end: nat, pad: Bytes, rest: Bytes)
    requires 8 <= end <= |s| && s[end..] == pad + rest
    ensures s == s[..4] + s[4..8] + s[8..end] + pad + rest
  {
    Cut(s, end);
    Assoc(s[..end], pad, rest);
    assert s[..end] == s[..4] + s[4..8] + s[8..end];
  }

  lemma {:induction false} ParseLaid(s: Bytes) returns (pads: seq<Bytes>)
    requires W.Parse(s).Ok?
    ensures PadsFit(W.Parse(s).value, pads) && LaysOut(W.Parse(s).value, pads, s)
    decreases |s|
  {
    if s == [] {
      pads := [];
    } else {
      var pad := OneLaid(s);
      var rest := ParseLaid(W.Rest(s));
      pads := [pad] + rest;
      var c, cs := W.First(s), W.Parse(W.Rest(s)).value;
      Cons(c, cs);
      Cons(pad, rest);
      assert W.Rest(s) == [] ==> cs == [];
      hide W.Fits, W.First, W.Rest, LeBytes;
      assert PadsFit([c] + cs, pads);
    }
  }

  /** The walk finds these chunks if and only if the bytes between the WEBP tag and the RIFF end are they, laid out with their
      sizes and any padding. */
  lemma WebpExactly(s: Bytes, cs: seq<W.Chunk>)
    ensures W.Parse(s) == Ok(cs) <==>
            && (forall i :: 0 <= i < |cs| ==> |cs[i].data| < 0x1_0000_0000)
            && exists pads :: PadsFit(cs, pads) && LaysOut(cs, pads, s)
  {
    hide W.Parse, PadsFit, Laid;
    if W.Parse(s) == Ok(cs) {
      var pads := ParseLaid(s);
      W.ParseSized(s);
      assert PadsFit(cs, pads) && LaysOut(cs, pads, s);
    }
    if W.AllSized(cs) {
      forall pads | PadsFit(cs, pads) && LaysOut(cs, pads, s) ensures W.Parse(s) == Ok(cs) { LaidParses(cs, pads); }
    }
  }

  predicate LaysOut(cs: seq<W.Chunk>, pads: seq<Bytes>, s: Bytes) { |pads| == |cs| && s == Laid(cs, pads) }
}
