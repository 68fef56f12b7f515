/** `clean_jpeg`: a marker-by-marker scanner whose output, scanned again, is its own fixed point. */
module Jpeg {
  import opened Prelude

  datatype Error = NoStart | ExpectedMarker | UnexpectedMarker | TruncatedHeader | SegmentPastEnd | NoEnd

  /** One thing the scanner meets. `fill` counts the extra 0xFF bytes before the marker; `data` starts with the
      two length bytes; a start-of-scan segment carries the entropy-coded run that follows it. */
  datatype Piece =
    | Standalone(fill: nat, marker: byte)
    | Segment(fill: nat, marker: byte, data: Bytes)
    | Scan(fill: nat, data: Bytes, run: Bytes)
    | End(fill: nat)

  // ----- scanning

  predicate Restart(m: byte) { 0xD0 <= m <= 0xD7 }

  predicate StandaloneMarker(m: byte) { m == 0x01 || Restart(m) }

  predicate SegmentMarker(m: byte) {
    !StandaloneMarker(m) && m != 0x00 && m != 0xD8 && m != 0xD9 && m != 0xDA && m != 0xFF
  }

  function Be16(hi: byte, lo: byte): nat { 256 * hi + lo }

  /** How many 0xFF bytes `s` starts with. */
  function Fill(s: Bytes): (k: nat)
    ensures k <= |s|
    ensures forall j :: 0 <= j < k ==> s[j] == 0xFF
    ensures k < |s| ==> s[k] != 0xFF
  {
    if s != [] && s[0] == 0xFF then 1 + Fill(s[1..]) else 0
  }

  function Further(n: nat, r: Option<nat>): Option<nat> {
    if r.Some? then Some(n + r.value) else None
  }

  /** Length of the entropy-coded run at the front of `s`, up to the next real marker. */
  function RunLength(s: Bytes): (r: Option<nat>)
    ensures r.Some? ==> r.value + 2 <= |s|
  {
    if s == [] then None
    else if s[0] != 0xFF then Further(1, RunLength(s[1..]))
    else if |s| == 1 then None
    else if s[1] == 0x00 || Restart(s[1]) then Further(2, RunLength(s[2..]))
    else if s[1] == 0xFF then Further(1, RunLength(s[1..]))
    else Some(0)
  }

  /** The pieces of `s`, which starts right after the start-of-image marker, up to the first end-of-image. */
  function Parse(s: Bytes): (r: Result<seq<Piece>, Error>)
    decreases |s|, 0
  {
    if s == [] then Err(NoEnd)
    else if s[0] != 0xFF then Err(ExpectedMarker)
    else if Fill(s) == |s| then Err(NoEnd)
    else ParseMarker(Fill(s) - 1, s[Fill(s)], s[Fill(s) + 1..])
  }

  function ParseMarker(fill: nat, m: byte, t: Bytes): (r: Result<seq<Piece>, Error>)
    decreases |t|, 1
  {
    if m == 0xD9 then Ok([End(fill)])
    else if StandaloneMarker(m) then Prepend([Standalone(fill, m)], Parse(t))
    else if m == 0x00 || m == 0xD8 then Err(UnexpectedMarker)
    else if |t| < 2 then Err(TruncatedHeader)
    else
      var len := Be16(t[0], t[1]);
      if len < 2 || len > |t| then Err(SegmentPastEnd)
      else if m != 0xDA then Prepend([Segment(fill, m, t[..len])], Parse(t[len..]))
      else
        var run := RunLength(t[len..]);
        if run.None? then Err(NoEnd)
        else Prepend([Scan(fill, t[..len], t[len..][..run.value])], Parse(t[len..][run.value..]))
  }

  // ----- what is kept

  const JFIF: Bytes := [0x4A, 0x46, 0x49, 0x46, 0x00]
  const EXIF: Bytes := [0x45, 0x78, 0x69, 0x66, 0x00, 0x00]
  const ICC: Bytes := [0x49, 0x43, 0x43, 0x5F, 0x50, 0x52, 0x4F, 0x46, 0x49, 0x4C, 0x45, 0x00]
  const ADOBE: Bytes := [0x41, 0x64, 0x6F, 0x62, 0x65]

  predicate SegmentKept(marker: byte, payload: Bytes) {
    if marker == 0xE0 then JFIF <= payload
    else if marker == 0xE2 then ICC <= payload
    else if marker == 0xEE then ADOBE <= payload
    else !(0xE1 <= marker <= 0xEF) && marker != 0xFE
  }

  predicate PieceKept(p: Piece) {
    p.Segment? ==> SegmentKept(p.marker, if |p.data| < 2 then [] else p.data[2..])
  }

  function Kept(ps: seq<Piece>): seq<Piece> {
    if ps == [] then [] else (if PieceKept(ps[0]) then [ps[0]] else []) + Kept(ps[1..])
  }

  // ----- orientation

  function U16At(tiff: Bytes, big: bool, o: nat): Option<nat> {
    if o + 2 > |tiff| then None
    else Some(if big then Be16(tiff[o], tiff[o + 1]) else Be16(tiff[o + 1], tiff[o]))
  }

  function U32At(tiff: Bytes, big: bool, o: nat): Option<nat> {
    if o + 4 > |tiff| then None
    else Some(if big then 65536 * Be16(tiff[o], tiff[o + 1]) + Be16(tiff[o + 2], tiff[o + 3])
              else 65536 * Be16(tiff[o + 3], tiff[o + 2]) + Be16(tiff[o + 1], tiff[o]))
  }

  /** The entry scan of IFD0: entry `k` of `count`. */
  function OrientationFrom(tiff: Bytes, big: bool, ifd: nat, k: nat, count: nat): Option<nat>
    requires k <= count
    decreases count - k
  {
    if k == count then None
    else
      var entry := ifd + 2 + k * 12;
      var tag := U16At(tiff, big, entry);
      if tag.None? then None
      else if tag.value == 0x0112 then
        if U16At(tiff, big, entry + 2) == Some(3) && U32At(tiff, big, entry + 4) == Some(1)
        then U16At(tiff, big, entry + 8) else None
      else OrientationFrom(tiff, big, ifd, k + 1, count)
  }

  function ExifOrientation(tiff: Bytes): Option<nat> {
    if |tiff| < 2 || (tiff[..2] != [0x4D, 0x4D] && tiff[..2] != [0x49, 0x49]) then None
    else
      var big := tiff[0] == 0x4D;
      if U16At(tiff, big, 2) != Some(42) || U32At(tiff, big, 4).None? then None
      else
        var ifd := U32At(tiff, big, 4).value;
        var count := U16At(tiff, big, ifd);
        if count.None? then None else OrientationFrom(tiff, big, ifd, 0, count.value)
  }

  function PieceOrientation(p: Piece): Option<nat> {
    if p.Segment? && p.marker == 0xE1 && |p.data| >= 2 && EXIF <= p.data[2..]
    then ExifOrientation(p.data[2..][6..]) else None
  }

  /** The first EXIF block that yields a value decides. */
  function Orientation(ps: seq<Piece>): Option<nat> {
    if ps == [] then None
    else if PieceOrientation(ps[0]).Some? then PieceOrientation(ps[0])
    else Orientation(ps[1..])
  }

  /** What a viewer has to undo: values outside 2..8 mean upright. */
  function Effective(o: Option<nat>): Option<nat> {
    if o.Some? && 2 <= o.value <= 8 then o else None
  }

  /** A big-endian TIFF block whose only entry is the orientation, as a SHORT with one value. */
  function OrientationTiff(o: nat): Bytes
    requires o < 65536
  {
    [0x4D, 0x4D, 0x00, 0x2A] + [0x00, 0x00, 0x00, 0x08] + [0x00, 0x01]
    + [0x01, 0x12, 0x00, 0x03] + [0x00, 0x00, 0x00, 0x01] + [o / 256, o % 256, 0x00, 0x00] + [0x00, 0x00, 0x00, 0x00]
  }

  function OrientationData(o: nat): Bytes
    requires o < 65536
  {
    [0x00, 0x22] + EXIF + OrientationTiff(o)
  }

  function OrientationPieces(o: Option<nat>): seq<Piece> {
    if Effective(o).Some? then [Segment(0, 0xE1, OrientationData(o.value))] else []
  }

  // ----- printing

  function Print(p: Piece): Bytes {
    match p
    case Standalone(_, m) => [0xFF, m]
    case Segment(_, m, data) => [0xFF, m] + data
    case Scan(_, data, run) => [0xFF, 0xDA] + data + run
    case End(_) => [0xFF, 0xD9]
  }

  function PrintAll(ps: seq<Piece>): Bytes {
    if ps == [] then [] else Print(ps[0]) + PrintAll(ps[1..])
  }

  predicate IsJfif(p: Piece) { p.Segment? && p.marker == 0xE0 }

  /** How many of the kept pieces are a leading JFIF header: none or one. */
  function Lead(kept: seq<Piece>): (n: nat)
    ensures n <= |kept|
  {
    if kept != [] && IsJfif(kept[0]) then 1 else 0
  }

  function Assembled(ps: seq<Piece>): seq<Piece> {
    var kept := Kept(ps);
    kept[..Lead(kept)] + OrientationPieces(Orientation(ps)) + kept[Lead(kept)..]
  }

  /** What `clean_jpeg` returns. */
  function Clean(d: Bytes): Result<Bytes, Error> {
    if |d| < 4 || d[0] != 0xFF || d[1] != 0xD8 then Err(NoStart)
    else
      var ps := Parse(d[2..]);
      if ps.Err? then Err(ps.error) else Ok([0xFF, 0xD8] + PrintAll(Assembled(ps.value)))
  }

  // ----- well-formed piece lists

  /** Bytes the run scanner walks over completely when a marker follows. */
  predicate RunOk(run: Bytes) {
    if run == [] then true
    else if run[0] != 0xFF then RunOk(run[1..])
    else if |run| == 1 then true
    else if run[1] == 0x00 || Restart(run[1]) then RunOk(run[2..])
    else run[1] == 0xFF && RunOk(run[1..])
  }

  predicate DataOk(data: Bytes) { |data| >= 2 && Be16(data[0], data[1]) == |data| }

  predicate PieceOk(p: Piece) {
    match p
    case Standalone(_, m) => StandaloneMarker(m)
    case Segment(_, m, data) => SegmentMarker(m) && DataOk(data)
    case Scan(_, data, run) => DataOk(data) && RunOk(run)
    case End(_) => true
  }

  predicate WellFormed(ps: seq<Piece>) {
    ps != [] && PieceOk(ps[0]) &&
    (if ps[0].End? then |ps| == 1 else WellFormed(ps[1..]))
  }

  lemma {:induction false} RunLengthOk(s: Bytes)
    requires RunLength(s).Some?
    ensures var n := RunLength(s).value; RunOk(s[..n]) && s[n] == 0xFF && !Restart(s[n + 1]) && s[n + 1] !in {0x00, 0xFF}
    decreases |s|
  {
    var n := RunLength(s).value;
    if s[0] != 0xFF {
      RunLengthOk(s[1..]);
      assert s[..n][1..] == s[1..][..n - 1];
    } else if s[1] == 0x00 || Restart(s[1]) {
      RunLengthOk(s[2..]);
      assert s[..n][2..] == s[2..][..n - 2];
    } else if s[1] == 0xFF {
      RunLengthOk(s[1..]);
      assert s[..n][1..] == s[1..][..n - 1];
      assert n >= 2 ==> s[..n][1] == 0xFF;
    }
  }

  lemma {:induction false} ParseWellFormed(s: Bytes)
    requires Parse(s).Ok?
    ensures WellFormed(Parse(s).value)
    decreases |s|, 0
  {
    var k := Fill(s);
    ParseMarkerWellFormed(k - 1, s[k], s[k + 1..]);
  }

  lemma {:induction false} ParseMarkerWellFormed(fill: nat, m: byte, t: Bytes)
    requires m != 0xFF && ParseMarker(fill, m, t).Ok?
    ensures WellFormed(ParseMarker(fill, m, t).value)
    decreases |t|, 1
  {
    var ps := ParseMarker(fill, m, t).value;
    if m == 0xD9 {
    } else if StandaloneMarker(m) {
      ParseWellFormed(t);
      assert ps[1..] == Parse(t).value;
    } else {
      var len := Be16(t[0], t[1]);
      var u := t[len..];
      if m != 0xDA {
        ParseWellFormed(u);
        assert ps[1..] == Parse(u).value;
      } else {
        RunLengthOk(u);
        var n := RunLength(u).value;
        ParseWellFormed(u[n..]);
        assert ps[1..] == Parse(u[n..]).value;
      }
    }
  }

  // ----- the scanner reads what is there

  function FFs(n: nat): Bytes { if n == 0 then [] else [0xFF] + FFs(n - 1) }

  /** `p` with its fill bytes, as it stood in the input. */
  function Raw(p: Piece): Bytes { FFs(p.fill) + Print(p) }

  function RawAll(ps: seq<Piece>): Bytes {
    if ps == [] then [] else Raw(ps[0]) + RawAll(ps[1..])
  }

  lemma {:induction false} FillSplit(s: Bytes)
    requires s != [] && s[0] == 0xFF
    ensures Fill(s) >= 1 && s == FFs(Fill(s) - 1) + [0xFF] + s[Fill(s)..]
  {
    if Fill(s) > 1 {
      FillSplit(s[1..]);
      assert s[1..][Fill(s) - 1..] == s[Fill(s)..];
      assert s == [0xFF] + s[1..];
    }
  }

  lemma RawCons(p: Piece, ps: seq<Piece>, body: Bytes, u: Bytes)
    requires body == Print(p) + u && RawAll(ps) <= u
    ensures RawAll([p] + ps) <= FFs(p.fill) + body
  {
    Cons(p, ps);
    hide Raw, FFs, Print;
    var r, f, q := RawAll(ps), FFs(p.fill), Print(p);
    assert RawAll([p] + ps) == (f + q) + r by { RawIs(p); }
    hide RawAll;
    var t := u[|r|..];
    Cut(u, |r|);
    Assoc(q, r, t);
    Assoc(f, q + r, t);
    Assoc(f, q, r);
    Starts(f + (q + r), t);
  }

  lemma RawIs(p: Piece)
    ensures Raw(p) == FFs(p.fill) + Print(p)
  {
  }

  lemma Starts<T>(a: seq<T>, b: seq<T>)
    ensures a <= a + b
  {
  }

  /** Nothing is invented or reordered: the pieces, fill bytes included, are the input up to its end-of-image. */
  lemma {:induction false} ParseSound(s: Bytes)
    requires Parse(s).Ok?
    ensures RawAll(Parse(s).value) <= s
    decreases |s|, 0
  {
    hide RawAll, ParseMarker, FFs;
    var k := Fill(s);
    FillSplit(s);
    var t, u := s[k..], s[k + 1..];
    Cut(t, 1);
    Drops(s, k, 1);
    assert t == [s[k]] + u;
    Assoc(FFs(k - 1), [0xFF], t);
    assert [0xFF] + ([s[k]] + u) == [0xFF, s[k]] + u;
    hide Fill;
    ParseMarkerSound(k - 1, s[k], u);
  }

  lemma {:induction false} ParseMarkerSound(fill: nat, m: byte, t: Bytes)
    requires ParseMarker(fill, m, t).Ok?
    ensures RawAll(ParseMarker(fill, m, t).value) <= FFs(fill) + ([0xFF, m] + t)
    decreases |t|, 1
  {
    if m == 0xD9 {
      RawCons(End(fill), [], [0xFF, m] + t, t);
      assert [End(fill)] + [] == [End(fill)];
    } else if StandaloneMarker(m) {
      ParseSound(t);
      RawCons(Standalone(fill, m), Parse(t).value, [0xFF, m] + t, t);
    } else {
      var len := Be16(t[0], t[1]);
      if m == 0xDA {
        var n := RunLength(t[len..]).value;
        ParseSound(t[len..][n..]);
        ScanRaw(fill, t, len, n, Parse(t[len..][n..]).value);
      } else {
        ParseSound(t[len..]);
        SegmentRaw(fill, m, t, len, Parse(t[len..]).value);
      }
    }
  }

  lemma SegmentRaw(fill: nat, m: byte, t: Bytes, len: nat, ps: seq<Piece>)
    requires len <= |t| && RawAll(ps) <= t[len..]
    ensures RawAll([Segment(fill, m, t[..len])] + ps) <= FFs(fill) + ([0xFF, m] + t)
  {
    assert [0xFF, m] + t == [0xFF, m] + t[..len] + t[len..];
    RawCons(Segment(fill, m, t[..len]), ps, [0xFF, m] + t, t[len..]);
  }

  lemma ScanRaw(fill: nat, t: Bytes, len: nat, n: nat, ps: seq<Piece>)
    requires len <= |t| && n <= |t[len..]| && RawAll(ps) <= t[len..][n..]
    ensures RawAll([Scan(fill, t[..len], t[len..][..n])] + ps) <= FFs(fill) + ([0xFF, 0xDA] + t)
  {
    var u := t[len..];
    assert t == t[..len] + u && u == u[..n] + u[n..];
    assert [0xFF, 0xDA] + t == [0xFF, 0xDA] + t[..len] + u[..n] + u[n..];
    RawCons(Scan(fill, t[..len], u[..n]), ps, [0xFF, 0xDA] + t, u[n..]);
  }

  // ----- scanning printed pieces

  /** Printing drops fill bytes. */
  function Strip(p: Piece): Piece { p.(fill := 0) }

  /** Re-scanning glues restart markers that follow a scan's run onto that run. */
  function Merge(ps: seq<Piece>): seq<Piece>
    decreases |ps|
  {
    if ps == [] then []
    else if Glued(ps) then Merge([Glue(ps)] + ps[2..])
    else [Strip(ps[0])] + Merge(ps[1..])
  }

  predicate Glued(ps: seq<Piece>) {
    |ps| >= 2 && ps[0].Scan? && ps[1].Standalone? && Restart(ps[1].marker)
  }

  function Glue(ps: seq<Piece>): Piece
    requires Glued(ps)
  {
    ps[0].(run := ps[0].run + [0xFF, ps[1].marker])
  }

  lemma {:induction false} RunOkRestart(run: Bytes, m: byte)
    requires RunOk(run) && Restart(m)
    ensures RunOk(run + [0xFF, m])
    decreases |run|
  {
    var more := run + [0xFF, m];
    if run == [] {
      assert more[2..] == [];
    } else if run[0] != 0xFF {
      RunOkRestart(run[1..], m);
      assert more[1..] == run[1..] + [0xFF, m];
    } else if |run| == 1 {
      assert more[1..] == [0xFF, m] && more[1..][2..] == [];
    } else if run[1] == 0x00 || Restart(run[1]) {
      RunOkRestart(run[2..], m);
      assert more[2..] == run[2..] + [0xFF, m];
    } else {
      RunOkRestart(run[1..], m);
      assert more[1..] == run[1..] + [0xFF, m];
    }
  }

  lemma {:induction false} RunLengthOfRun(run: Bytes, rest: Bytes)
    requires RunOk(run) && |rest| >= 2 && rest[0] == 0xFF && !Restart(rest[1]) && rest[1] !in {0x00, 0xFF}
    ensures RunLength(run + rest) == Some(|run|)
    decreases |run|
  {
    var s := run + rest;
    if run == [] {
      assert s == rest;
    } else if run[0] != 0xFF || |run| == 1 || run[1] == 0xFF {
      RunLengthOfRun(run[1..], rest);
      assert s[1..] == run[1..] + rest;
    } else {
      RunLengthOfRun(run[2..], rest);
      assert s[2..] == run[2..] + rest;
    }
  }

  /** Printed pieces start with a marker; it ends a preceding run unless it is a restart marker. */
  lemma PrintStart(ps: seq<Piece>)
    requires WellFormed(ps)
    ensures var s := PrintAll(ps); |s| >= 2 && s[0] == 0xFF && s[1] !in {0x00, 0xFF}
    ensures !(ps[0].Standalone? && Restart(ps[0].marker)) ==> !Restart(PrintAll(ps)[1])
  {
  }

  lemma {:induction false} GluePrints(ps: seq<Piece>)
    requires WellFormed(ps) && Glued(ps)
    ensures var qs := [Glue(ps)] + ps[2..]; WellFormed(qs) && PrintAll(qs) == PrintAll(ps)
  {
    var qs := [Glue(ps)] + ps[2..];
    RunOkRestart(ps[0].run, ps[1].marker);
    assert qs[1..] == ps[2..] == ps[1..][1..];
  }

  lemma {:induction false} MergePrints(ps: seq<Piece>)
    requires WellFormed(ps)
    ensures PrintAll(Merge(ps)) == PrintAll(ps)
    decreases |ps|
  {
    if Glued(ps) {
      GluePrints(ps);
      MergePrints([Glue(ps)] + ps[2..]);
    } else if |ps| > 1 {
      MergePrints(ps[1..]);
    }
  }

  lemma {:induction false} ParseAfterMarker(m: byte, t: Bytes)
    requires m != 0xFF
    ensures Parse([0xFF, m] + t) == ParseMarker(0, m, t)
  {
    var s := [0xFF, m] + t;
    assert s[1..][0] == m && s[2..] == t;
  }

  lemma ParseSegment(m: byte, data: Bytes, tail: Bytes)
    requires SegmentMarker(m) && DataOk(data)
    ensures Parse([0xFF, m] + data + tail) == Prepend([Segment(0, m, data)], Parse(tail))
  {
    var t := data + tail;
    assert [0xFF, m] + data + tail == [0xFF, m] + t;
    ParseAfterMarker(m, t);
    assert t[..|data|] == data && t[|data|..] == tail;
  }

  lemma ParseScan(data: Bytes, run: Bytes, tail: Bytes)
    requires DataOk(data) && RunLength(run + tail) == Some(|run|)
    ensures Parse([0xFF, 0xDA] + data + run + tail) == Prepend([Scan(0, data, run)], Parse(tail))
  {
    var t, u := data + (run + tail), run + tail;
    assert [0xFF, 0xDA] + data + run + tail == [0xFF, 0xDA] + t;
    ParseAfterMarker(0xDA, t);
    assert t[..|data|] == data && t[|data|..] == u;
    assert u[..|run|] == run && u[|run|..] == tail;
  }

  /** Scanning what was printed finds the same pieces, up to fill bytes and glued restart markers. */
  lemma {:induction false} ParsePrint(ps: seq<Piece>)
    requires WellFormed(ps)
    ensures Parse(PrintAll(ps)) == Ok(Merge(ps))
    decreases |ps|
  {
    if Glued(ps) {
      GluePrints(ps);
      ParsePrint([Glue(ps)] + ps[2..]);
    } else if ps[0].End? {
      assert ps[1..] == [] && PrintAll(ps) == [0xFF, 0xD9] + [];
      ParseAfterMarker(0xD9, []);
      assert Merge(ps) == [End(0)];
    } else {
      ParsePrint(ps[1..]);
      ParsePrintOne(ps, PrintAll(ps[1..]));
    }
  }

  lemma {:induction false} ParsePrintOne(ps: seq<Piece>, tail: Bytes)
    requires WellFormed(ps) && !Glued(ps) && !ps[0].End? && tail == PrintAll(ps[1..])
    ensures Parse(PrintAll(ps)) == Prepend([Strip(ps[0])], Parse(tail))
  {
    match ps[0] {
      case Standalone(_, m) =>
        ParseAfterMarker(m, tail);
      case Segment(_, m, data) =>
        ParseSegment(m, data, tail);
      case Scan(_, data, run) =>
        PrintStart(ps[1..]);
        RunLengthOfRun(run, tail);
        ParseScan(data, run, tail);
    }
  }

  // ----- cleaning twice

  predicate AllKept(ps: seq<Piece>) { forall p :: p in ps ==> PieceKept(p) }

  lemma {:induction false} KeptFacts(ps: seq<Piece>)
    ensures AllKept(Kept(ps))
    ensures WellFormed(ps) ==> WellFormed(Kept(ps))
    ensures AllKept(ps) ==> Kept(ps) == ps
  {
    if ps != [] {
      KeptFacts(ps[1..]);
      assert ps == [ps[0]] + ps[1..];
      if PieceKept(ps[0]) {
        assert Kept(ps)[1..] == Kept(ps[1..]);
      } else {
        assert Kept(ps) == Kept(ps[1..]);
      }
    }
  }

  lemma {:induction false} KeptConcat(a: seq<Piece>, b: seq<Piece>)
    ensures Kept(a + b) == Kept(a) + Kept(b)
  {
    if a == [] {
      Nil(b);
    } else {
      KeptConcat(a[1..], b);
      Tail(a, b);
      Assoc((if PieceKept(a[0]) then [a[0]] else []), Kept(a[1..]), Kept(b));
    }
  }

  lemma {:induction false} OrientationConcat(a: seq<Piece>, b: seq<Piece>)
    ensures Orientation(a + b) == if Orientation(a).Some? then Orientation(a) else Orientation(b)
  {
    if a == [] {
      Nil(b);
    } else {
      OrientationConcat(a[1..], b);
      Tail(a, b);
    }
  }

  lemma KeptPiece(p: Piece)
    requires PieceKept(p)
    ensures PieceKept(Strip(p)) && PieceOrientation(p) == None
  {
  }

  lemma {:induction false} KeptUpright(ps: seq<Piece>)
    requires AllKept(ps)
    ensures Orientation(ps) == None
  {
    if ps != [] {
      KeptPiece(ps[0]);
      KeptUpright(ps[1..]);
    }
  }

  lemma {:induction false} MergeKept(ps: seq<Piece>)
    requires AllKept(ps)
    ensures AllKept(Merge(ps))
    ensures Lead(Merge(ps)) == Lead(ps)
    decreases |ps|
  {
    if Glued(ps) {
      MergeKept([Glue(ps)] + ps[2..]);
    } else if ps != [] {
      MergeKept(ps[1..]);
      KeptPiece(ps[0]);
      assert Merge(ps) == [Strip(ps[0])] + Merge(ps[1..]);
    }
  }

  lemma MergeFirst(p: Piece, ps: seq<Piece>)
    requires !p.Scan?
    ensures Merge([p] + ps) == [Strip(p)] + Merge(ps)
  {
    assert ([p] + ps)[1..] == ps;
  }

  lemma TiffReads(o: nat)
    requires o < 65536
    ensures |OrientationTiff(o)| == 26 && ExifOrientation(OrientationTiff(o)) == Some(o)
  {
    var tiff := OrientationTiff(o);
    assert tiff[0..4] == [0x4D, 0x4D, 0x00, 0x2A];
    assert tiff[4..8] == [0x00, 0x00, 0x00, 0x08];
    assert tiff[8..10] == [0x00, 0x01];
    assert tiff[10..14] == [0x01, 0x12, 0x00, 0x03];
    assert tiff[14..18] == [0x00, 0x00, 0x00, 0x01];
    assert tiff[18..22] == [o / 256, o % 256, 0x00, 0x00];
    assert OrientationFrom(tiff, true, 8, 0, 1) == Some(o);
  }

  lemma NoExifKept(payload: Bytes)
    ensures !SegmentKept(0xE1, payload)
  {
  }

  /** The minimal block reads back as the orientation it was written for. */
  lemma MinimalBlock(o: nat)
    requires o < 65536
    ensures var p := Segment(0, 0xE1, OrientationData(o));
            PieceOk(p) && !PieceKept(p) && PieceOrientation(p) == Some(o)
  {
    TiffReads(o);
    hide OrientationTiff, ExifOrientation, SegmentKept;
    var data, tiff := OrientationData(o), OrientationTiff(o);
    Assoc([0x00, 0x22], EXIF, tiff);
    Halves([0x00, 0x22], EXIF + tiff);
    Halves(EXIF, tiff);
    assert data[2..] == EXIF + tiff && data[2..][6..] == tiff;
    assert data[0] == 0x00 && data[1] == 0x22;
    assert !SegmentKept(0xE1, data[2..]) by { NoExifKept(data[2..]); }
  }

  lemma OrientationPiecesFacts(o: Option<nat>)
    ensures var e := OrientationPieces(o);
            && |e| <= 1 && Kept(e) == [] && Effective(Orientation(e)) == Effective(o)
            && OrientationPieces(Orientation(e)) == e
            && (e != [] ==> PieceOk(e[0]) && Strip(e[0]) == e[0] && e[0].Segment?)
  {
    if Effective(o).Some? {
      MinimalBlock(o.value);
      assert OrientationPieces(o)[1..] == [];
    }
  }

  lemma WellFormedCons(p: Piece, ps: seq<Piece>)
    requires PieceOk(p) && !p.End? && WellFormed(ps)
    ensures WellFormed([p] + ps)
  {
    assert ([p] + ps)[1..] == ps;
  }

  lemma BeforeRest(e: seq<Piece>, rest: seq<Piece>)
    requires |e| <= 1 && WellFormed(rest)
    requires e != [] ==> PieceOk(e[0]) && e[0].Segment?
    ensures WellFormed(e + rest)
    ensures Merge(e + rest) == (if e == [] then [] else [Strip(e[0])]) + Merge(rest)
  {
    if e == [] {
      assert e + rest == rest;
    } else {
      assert e + rest == [e[0]] + rest;
      WellFormedCons(e[0], rest);
      MergeFirst(e[0], rest);
    }
  }

  /** The re-scanned output, piece by piece: leading JFIF, orientation block, the rest of what was kept. */
  lemma {:induction false} AssembledMerges(ps: seq<Piece>)
    requires WellFormed(ps)
    ensures WellFormed(Assembled(ps))
    ensures var again := Merge(Kept(ps));
            var n := Lead(again);
            && AllKept(again)
            && Merge(Assembled(ps)) == again[..n] + OrientationPieces(Orientation(ps)) + again[n..]
  {
    var kept, e := Kept(ps), OrientationPieces(Orientation(ps));
    KeptFacts(ps);
    MergeKept(kept);
    OrientationPiecesFacts(Orientation(ps));
    SplitMerges(kept, e);
  }

  lemma {:induction false} SplitMerges(kept: seq<Piece>, e: seq<Piece>)
    requires WellFormed(kept) && |e| <= 1 && (e != [] ==> PieceOk(e[0]) && e[0].Segment? && Strip(e[0]) == e[0])
    requires Lead(Merge(kept)) == Lead(kept)
    ensures var n := Lead(kept);
            && WellFormed(kept[..n] + e + kept[n..])
            && Merge(kept[..n] + e + kept[n..]) == Merge(kept)[..n] + e + Merge(kept)[n..]
  {
    var n := Lead(kept);
    var lead, rest := kept[..n], kept[n..];
    Cut(kept, n);
    Assoc(lead, e, rest);
    assert WellFormed(rest);
    BeforeRest(e, rest);
    BeforeRest(lead, rest);
    BeforeRest(lead, e + rest);
    var head := if lead == [] then [] else [Strip(lead[0])];
    Halves(head, Merge(rest));
    Assoc(head, e, Merge(rest));
  }

  /** Pieces in the shape the cleaner prints: `head` and `tail` kept, an orientation block between. */
  lemma {:induction false} ShapeStable(head: seq<Piece>, e: seq<Piece>, tail: seq<Piece>)
    requires AllKept(head) && AllKept(tail) && Kept(e) == [] && OrientationPieces(Orientation(e)) == e
    requires Lead(head + tail) == |head|
    ensures var qs := head + e + tail;
            Kept(qs) == head + tail && Orientation(qs) == Orientation(e) && Assembled(qs) == qs
  {
    hide Kept, Orientation, OrientationPieces, AllKept, Lead;
    var qs := head + (e + tail);
    Assoc(head, e, tail);
    KeptFacts(head);
    KeptFacts(tail);
    KeptConcat(e, tail);
    KeptConcat(head, e + tail);
    KeptUpright(head);
    KeptUpright(tail);
    OrientationConcat(e, tail);
    OrientationConcat(head, e + tail);
    Nil(tail);
    Halves(head, tail);
  }

  lemma KeptHalves(ps: seq<Piece>, n: nat)
    requires AllKept(ps) && n <= |ps|
    ensures AllKept(ps[..n]) && AllKept(ps[n..])
  {
    hide PieceKept;
  }

  lemma {:induction false} AssembledStable(ps: seq<Piece>)
    requires WellFormed(ps)
    ensures var qs := Merge(Assembled(ps));
            && Assembled(qs) == qs
            && Kept(qs) == Merge(Kept(ps))
            && Effective(Orientation(qs)) == Effective(Orientation(ps))
  {
    hide Merge, Kept, Orientation, OrientationPieces, Assembled, WellFormed, Effective;
    AssembledMerges(ps);
    var again, e := Merge(Kept(ps)), OrientationPieces(Orientation(ps));
    var n := Lead(again);
    Cut(again, n);
    KeptHalves(again, n);
    OrientationPiecesFacts(Orientation(ps));
    hide Lead, AllKept;
    ShapeStable(again[..n], e, again[n..]);
  }

  /** Cleaning is a fixed point: whatever is accepted comes out in a form that cleans to itself. */
  lemma CleanIsFixedPoint(d: Bytes)
    requires Clean(d).Ok?
    ensures Clean(Clean(d).value) == Clean(d)
  {
    PicturePreserved(d);
    var ps := Parse(d[2..]).value;
    ParseWellFormed(d[2..]);
    AssembledMerges(ps);
    AssembledStable(ps);
    MergePrints(Assembled(ps));
  }

  /** "JFIF" and a zero byte after the length. */
  predicate SaysJfif(d: Bytes) { |d| >= 7 && d[2] == 0x4A && d[3] == 0x46 && d[4] == 0x49 && d[5] == 0x46 && d[6] == 0 }

  /** "ICC_PROFILE" and a zero byte. */
  predicate SaysIcc(d: Bytes) {
    && |d| >= 14 && d[2] == 0x49 && d[3] == 0x43 && d[4] == 0x43 && d[5] == 0x5F && d[6] == 0x50 && d[7] == 0x52
    && d[8] == 0x4F && d[9] == 0x46 && d[10] == 0x49 && d[11] == 0x4C && d[12] == 0x45 && d[13] == 0
  }

  /** "Adobe". */
  predicate SaysAdobe(d: Bytes) { |d| >= 7 && d[2] == 0x41 && d[3] == 0x64 && d[4] == 0x6F && d[5] == 0x62 && d[6] == 0x65 }

  /** What is not picture: application and comment segments, but for a JFIF header, a colour profile and Adobe's transform. */
  predicate Metadata(p: Piece) {
    && p.Segment? && (0xE0 <= p.marker <= 0xEF || p.marker == 0xFE)
    && !(p.marker == 0xE0 && SaysJfif(p.data)) && !(p.marker == 0xE2 && SaysIcc(p.data)) && !(p.marker == 0xEE && SaysAdobe(p.data))
  }

  lemma Says(d: Bytes)
    requires |d| >= 2
    ensures JFIF <= d[2..] <==> SaysJfif(d)
    ensures ADOBE <= d[2..] <==> SaysAdobe(d)
  {
    var s := d[2..];
    assert forall i :: 0 <= i < |s| ==> s[i] == d[i + 2];
    if SaysJfif(d) { assert s[..5] == JFIF; }
    if SaysAdobe(d) { assert s[..5] == ADOBE; }
  }

  lemma SaysIt(d: Bytes)
    requires |d| >= 2
    ensures ICC <= d[2..] <==> SaysIcc(d)
  {
    var s := d[2..];
    assert forall i :: 0 <= i < |s| ==> s[i] == d[i + 2];
    if SaysIcc(d) { assert s[..12] == ICC; }
  }

  lemma MetadataDropped(p: Piece)
    ensures PieceKept(p) <==> !Metadata(p)
  {
    if p.Segment? && |p.data| >= 2 {
      Says(p.data);
      SaysIt(p.data);
      hide SaysJfif, SaysIcc, SaysAdobe, JFIF, ICC, ADOBE;
    }
  }

  /** The pieces kept are the input's, in order, without exactly the metadata. */
  lemma {:induction false} KeptExactly(ps: seq<Piece>)
    ensures Kept(ps) == Filter(ps, (p: Piece) => !Metadata(p))
  {
    if ps != [] {
      KeptExactly(ps[1..]);
      MetadataDropped(ps[0]);
      hide PieceKept, Metadata;
    }
  }

  lemma {:induction false} NoBlockNoOrientation(ps: seq<Piece>)
    requires forall p :: p in ps && p.Segment? ==> p.marker != 0xE1
    ensures Orientation(ps) == None
  {
    if ps != [] { NoBlockNoOrientation(ps[1..]); }
  }

  lemma PureAssembled(ps: seq<Piece>)
    requires Kept(ps) == ps && Orientation(ps) == None && (ps != [] ==> !IsJfif(ps[0]))
    ensures Assembled(ps) == ps
  {
    hide Kept, Orientation;
    assert ps[..0] == [] && ps[0..] == ps;
    Nil(ps);
  }

  /** A picture without any application or comment segment comes out as it is, up to its end and without fill bytes. */
  lemma PurePictureUnchanged(d: Bytes)
    requires |d| >= 4 && d[0] == 0xFF && d[1] == 0xD8 && Parse(d[2..]).Ok?
    requires forall p :: p in Parse(d[2..]).value && p.Segment? ==> !(0xE0 <= p.marker <= 0xEF) && p.marker != 0xFE
    ensures Clean(d) == Ok([0xFF, 0xD8] + PrintAll(Parse(d[2..]).value))
  {
    hide Parse, PrintAll, SaysJfif, SaysIcc, SaysAdobe, Kept, Filter, Orientation;
    var ps := Parse(d[2..]).value;
    KeptExactly(ps);
    FilterContents(ps, (p: Piece) => !Metadata(p));
    NoBlockNoOrientation(ps);
    hide Metadata;
    PureAssembled(ps);
  }

  /** A word in both byte orders, spelled out. */
  lemma WordsAre(t: Bytes, o: nat)
    ensures U16At(t, true, o) == if o + 2 <= |t| then Some(256 * (t[o] as int) + t[o + 1]) else None
    ensures U16At(t, false, o) == if o + 2 <= |t| then Some(256 * (t[o + 1] as int) + t[o]) else None
  {
  }

  /** A long word is two words, the high one first or last. */
  lemma LongWordsAre(t: Bytes, o: nat)
    ensures U32At(t, true, o) ==
            if o + 4 <= |t| then Some(0x1_0000 * U16At(t, true, o).value + U16At(t, true, o + 2).value) else None
    ensures U32At(t, false, o) ==
            if o + 4 <= |t| then Some(0x1_0000 * U16At(t, false, o + 2).value + U16At(t, false, o).value) else None
  {
    hide Be16;
  }

  /** Entry `j` of the directory at `ifd` is the first with the orientation tag, and it is one SHORT of value `v`. */
  predicate OrientationEntry(t: Bytes, big: bool, ifd: nat, j: nat, v: nat) {
    && (forall i :: 0 <= i < j ==> var tag := U16At(t, big, ifd + 2 + i * 12); tag.Some? && tag.value != 0x0112)
    && U16At(t, big, ifd + 2 + j * 12) == Some(0x0112) && U16At(t, big, ifd + 4 + j * 12) == Some(3)
    && U32At(t, big, ifd + 6 + j * 12) == Some(1) && U16At(t, big, ifd + 10 + j * 12) == Some(v)
  }

  lemma {:induction false} EntryScan(t: Bytes, big: bool, ifd: nat, k: nat, count: nat, v: nat)
    requires k <= count && forall i :: 0 <= i < k ==> var tag := U16At(t, big, ifd + 2 + i * 12); tag.Some? && tag.value != 0x0112
    ensures OrientationFrom(t, big, ifd, k, count) == Some(v) <==> exists j :: k <= j < count && OrientationEntry(t, big, ifd, j, v)
    decreases count - k
  {
    hide U16At, U32At;
    if k < count {
      var tag := U16At(t, big, ifd + 2 + k * 12);
      if tag.Some? && tag.value != 0x0112 {
        EntryScan(t, big, ifd, k + 1, count, v);
      } else {
        assert forall j :: k < j < count ==> !OrientationEntry(t, big, ifd, j, v);
        assert OrientationFrom(t, big, ifd, k, count) == Some(v) <==> OrientationEntry(t, big, ifd, k, v);
      }
    }
  }

  /** A TIFF block yields an orientation exactly when, in its byte order, it is marked 42 and its first directory's first
      orientation entry is one SHORT of that value. */
  lemma ExifExactly(t: Bytes, v: nat)
    ensures ExifOrientation(t) == Some(v) <==>
            && |t| >= 2 && ((t[0] == 0x4D && t[1] == 0x4D) || (t[0] == 0x49 && t[1] == 0x49))
            && var big := t[0] == 0x4D;
            && U16At(t, big, 2) == Some(42) && U32At(t, big, 4).Some?
            && var ifd := U32At(t, big, 4).value;
            && U16At(t, big, ifd).Some?
            && exists j :: 0 <= j < U16At(t, big, ifd).value && OrientationEntry(t, big, ifd, j, v)
  {
    hide U16At, U32At, OrientationEntry;
    if |t| >= 2 {
      assert t[..2] == [t[0], t[1]];
      var big := t[0] == 0x4D;
      if U32At(t, big, 4).Some? && U16At(t, big, U32At(t, big, 4).value).Some? {
        var ifd := U32At(t, big, 4).value;
        EntryScan(t, big, ifd, 0, U16At(t, big, ifd).value, v);
      }
      hide OrientationFrom;
    }
  }

  /** An application segment that starts with "Exif" and two zero bytes, and whose block yields `v`. */
  predicate Yields(p: Piece, v: nat) {
    && p.Segment? && p.marker == 0xE1 && |p.data| >= 8
    && p.data[2] == 0x45 && p.data[3] == 0x78 && p.data[4] == 0x69 && p.data[5] == 0x66 && p.data[6] == 0 && p.data[7] == 0
    && ExifOrientation(p.data[8..]) == Some(v)
  }

  lemma YieldsExactly(p: Piece, v: nat)
    ensures PieceOrientation(p) == Some(v) <==> Yields(p, v)
  {
    hide ExifOrientation;
    if p.Segment? && |p.data| >= 2 {
      var s := p.data[2..];
      assert forall i :: 0 <= i < |s| ==> s[i] == p.data[i + 2];
      if |s| >= 6 {
        Drops(p.data, 2, 6);
        assert s[..6] == EXIF <==> EXIF <= s;
      }
    }
  }

  /** The orientation is that of the first block that yields one. */
  lemma {:induction false} OrientationExactly(ps: seq<Piece>, v: nat)
    ensures Orientation(ps) == Some(v) <==>
            exists i :: 0 <= i < |ps| && Yields(ps[i], v) && forall j :: 0 <= j < i ==> forall w :: !Yields(ps[j], w)
  {
    hide PieceOrientation, Yields;
    if ps != [] {
      var o, rest := PieceOrientation(ps[0]), ps[1..];
      forall w: nat ensures o == Some(w) <==> Yields(ps[0], w) { YieldsExactly(ps[0], w); }
      if o.Some? {
        assert Yields(ps[0], o.value);
      } else {
        OrientationExactly(rest, v);
        assert forall i :: 0 <= i < |rest| ==> rest[i] == ps[i + 1];
        if Orientation(rest) == Some(v) {
          var i :| 0 <= i < |rest| && Yields(rest[i], v) && forall j :: 0 <= j < i ==> forall w :: !Yields(rest[j], w);
          assert Yields(ps[i + 1], v) && forall j :: 0 <= j < i + 1 ==> forall w :: !Yields(ps[j], w);
        }
        if i :| 0 <= i < |ps| && Yields(ps[i], v) && forall j :: 0 <= j < i ==> forall w :: !Yields(ps[j], w) {
          assert i > 0;
          assert Yields(rest[i - 1], v) && forall j :: 0 <= j < i - 1 ==> forall w :: !Yields(rest[j], w);
        }
      }
    }
  }

  /** The 36 bytes of the block that says orientation `v` and nothing else. */
  function BlockBytes(v: byte): Bytes {
    [0xFF, 0xE1]
    + ([0x00, 0x22] + [0x45, 0x78, 0x69, 0x66, 0x00, 0x00]
       + ([0x4D, 0x4D, 0x00, 0x2A] + [0x00, 0x00, 0x00, 0x08] + [0x00, 0x01] + [0x01, 0x12, 0x00, 0x03] + [0x00, 0x00, 0x00, 0x01]
          + [0x00, v, 0x00, 0x00] + [0x00, 0x00, 0x00, 0x00]))
  }

  lemma BlockIs(v: byte)
    requires 2 <= v <= 8
    ensures PrintAll(OrientationPieces(Some(v as nat))) == BlockBytes(v)
  {
    BlockPrinted(Some(v as nat));
    hide PrintAll, OrientationPieces;
    assert v / 256 == 0 && v % 256 == v;
  }

  /** The output, byte for byte: the start marker, a leading JFIF header if that comes first, the block of an orientation from 2
      to 8, and the rest of the input's pieces without its metadata. */
  lemma OutputExactly(d: Bytes)
    requires Clean(d).Ok?
    ensures var ps := Parse(d[2..]).value;
            var kept := Filter(ps, (p: Piece) => !Metadata(p));
            var n := if kept != [] && kept[0].Segment? && kept[0].marker == 0xE0 then 1 else 0;
            var o := Orientation(ps);
            var block := if o.Some? && 2 <= o.value <= 8 then BlockBytes(o.value) else [];
            Clean(d).value == [0xFF, 0xD8] + (PrintAll(kept[..n]) + block + PrintAll(kept[n..]))
  {
    hide Parse, Metadata, Orientation;
    var ps := Parse(d[2..]).value;
    KeptExactly(ps);
    var kept, o := Kept(ps), Orientation(ps);
    if o.Some? && 2 <= o.value <= 8 { BlockIs(o.value); }
    hide Kept, BlockBytes;
    var n := Lead(kept);
    PrintConcat(kept[..n] + OrientationPieces(o), kept[n..]);
    PrintConcat(kept[..n], OrientationPieces(o));
    hide OrientationPieces;
  }

  predicate AppOrComment(p: Piece) { p.Segment? && (0xE0 <= p.marker <= 0xEF || p.marker == 0xFE) }

  /** Cleaning keeps the picture. Re-scanning the output finds the input's kept pieces in input order (restart
      markers glued to the run before them, fill bytes gone), at most one added block, and no application or
      comment segment but JFIF, ICC, Adobe and that block; the orientation a viewer applies is the input's. */
  lemma PicturePreserved(d: Bytes)
    requires Clean(d).Ok?
    ensures var out := Clean(d).value;
            var ps := Parse(d[2..]).value;
            var kept := Merge(Kept(ps));
            var n := Lead(kept);
            var block := OrientationPieces(Orientation(ps));
            && |out| >= 4 && out[..2] == [0xFF, 0xD8]
            && Parse(out[2..]) == Ok(kept[..n] + block + kept[n..])
            && PrintAll(kept) == PrintAll(Kept(ps))
            && (forall p :: p in Parse(out[2..]).value && AppOrComment(p) ==> PieceKept(p) || p in block)
            && Effective(Orientation(Parse(out[2..]).value)) == Effective(Orientation(ps))
  {
    var ps, out := Parse(d[2..]).value, Clean(d).value;
    ParseWellFormed(d[2..]);
    AssembledMerges(ps);
    AssembledStable(ps);
    PrintStart(Assembled(ps));
    ParsePrint(Assembled(ps));
    assert out[2..] == PrintAll(Assembled(ps));
    KeptFacts(ps);
    MergePrints(Kept(ps));
  }

  // ----- the loop

  lemma {:induction false} PrintConcat(a: seq<Piece>, b: seq<Piece>)
    ensures PrintAll(a + b) == PrintAll(a) + PrintAll(b)
  {
    if a == [] {
      Nil(b);
    } else {
      PrintConcat(a[1..], b);
      Tail(a, b);
      Assoc(Print(a[0]), PrintAll(a[1..]), PrintAll(b));
    }
  }

  /** What the loop variables mean once the pieces in `done` are behind it. */
  ghost predicate Seen(done: seq<Piece>, body: Bytes, orientation: Option<nat>, jfifEnd: nat) {
    var kept := Kept(done);
    && body == PrintAll(kept)
    && orientation == Orientation(done)
    && jfifEnd == |PrintAll(kept[..Lead(kept)])|
  }

  lemma {:induction false} SeenStep(done: seq<Piece>, p: Piece, body: Bytes, orientation: Option<nat>, jfifEnd: nat)
    requires Seen(done, body, orientation, jfifEnd)
    ensures Seen(done + [p],
                 if PieceKept(p) then body + Print(p) else body,
                 if orientation.Some? then orientation else PieceOrientation(p),
                 if PieceKept(p) && body == [] && IsJfif(p) then |Print(p)| else jfifEnd)
  {
    var kept, more := Kept(done), Kept(done + [p]);
    KeptConcat(done, [p]);
    OrientationConcat(done, [p]);
    assert Kept([p]) == (if PieceKept(p) then [p] else []);
    if PieceKept(p) {
      PrintConcat(kept, [p]);
      assert PrintAll([p]) == Print(p);
      if kept == [] {
        assert more == [p] && more[..Lead(more)] == (if IsJfif(p) then [p] else []);
      } else {
        assert PrintAll(kept) == Print(kept[0]) + PrintAll(kept[1..]);
        assert more[..Lead(more)] == kept[..Lead(kept)];
      }
    } else {
      assert more == kept;
    }
  }

  lemma SeenNothing()
    ensures Seen([], [], None, 0)
  {
  }

  lemma SeenBounds(done: seq<Piece>, body: Bytes, orientation: Option<nat>, jfifEnd: nat)
    requires Seen(done, body, orientation, jfifEnd)
    ensures jfifEnd <= |body|
    ensures body[..jfifEnd] + PrintAll(OrientationPieces(orientation)) + body[jfifEnd..] == PrintAll(Assembled(done))
  {
    var kept := Kept(done);
    var n := Lead(kept);
    var e := OrientationPieces(orientation);
    assert kept == kept[..n] + kept[n..];
    PrintConcat(kept[..n], kept[n..]);
    PrintConcat(kept[..n] + e, kept[n..]);
    PrintConcat(kept[..n], e);
  }

  lemma BlockPrinted(o: Option<nat>)
    ensures PrintAll(OrientationPieces(o)) ==
            if o.Some? && 2 <= o.value <= 8 then [0xFF, 0xE1] + OrientationData(o.value) else []
  {
  }

  method SkipFill(d: Bytes, at: nat) returns (i: nat)
    requires at < |d|
    ensures at <= i <= |d| && i - at == Fill(d[at..])
  {
    i := at;
    while i < |d| && d[i] == 0xFF
      invariant at <= i <= |d|
      invariant Fill(d[at..]) == (i - at) + Fill(d[i..])
    {
      assert d[i..][1..] == d[i + 1..];
      i := i + 1;
    }
  }

  function RunEnd(d: Bytes, i: nat): Option<nat>
    requires i <= |d|
  {
    Further(i, RunLength(d[i..]))
  }

  /** One step of the inner loop over entropy-coded data. */
  lemma RunStep(d: Bytes, i: nat)
    requires i <= |d|
    ensures RunEnd(d, i) ==
            if i == |d| then None
            else if d[i] != 0xFF then RunEnd(d, i + 1)
            else if i + 1 == |d| then None
            else if d[i + 1] == 0x00 || Restart(d[i + 1]) then RunEnd(d, i + 2)
            else if d[i + 1] == 0xFF then RunEnd(d, i + 1)
            else Some(i)
  {
    if i < |d| {
      Drops(d, i, 1);
      if i + 1 < |d| { Drops(d, i, 2); }
    }
  }

  /** The inner loop over entropy-coded data; `None` when the image ends inside it. */
  method SkipRun(d: Bytes, start: nat) returns (end: Option<nat>)
    requires start <= |d|
    ensures end == RunEnd(d, start)
  {
    hide RunEnd;
    var i: nat := start;
    while true
      invariant start <= i <= |d| && RunEnd(d, start) == RunEnd(d, i)
      decreases |d| - i
    {
      RunStep(d, i);
      if i >= |d| { return None; }
      if d[i] == 0xFF {
        if i + 1 >= |d| { return None; }
        if d[i + 1] == 0x00 || Restart(d[i + 1]) {
          i := i + 2;
        } else if d[i + 1] == 0xFF {
          i := i + 1;
        } else {
          return Some(i);
        }
      } else {
        i := i + 1;
      }
    }
  }

  /** The loop variables of `clean_jpeg` after a segment: kept or dropped, orientation noted, JFIF end marked. */
  method TakeSegment(marker: byte, data: Bytes, body: Bytes, orientation: Option<nat>, jfifEnd: nat)
    returns (newBody: Bytes, newOrientation: Option<nat>, newJfifEnd: nat)
    requires |data| >= 2
    ensures var p := Segment(0, marker, data);
            && newBody == (if PieceKept(p) then body + Print(p) else body)
            && newOrientation == (if orientation.Some? then orientation else PieceOrientation(p))
            && newJfifEnd == (if PieceKept(p) && body == [] && IsJfif(p) then |Print(p)| else jfifEnd)
  {
    newBody, newOrientation, newJfifEnd := body, orientation, jfifEnd;
    var payload := data[2..];
    if marker == 0xE1 && orientation.None? && EXIF <= payload {
      newOrientation := ExifOrientation(payload[6..]);
    }
    if SegmentKept(marker, payload) {
      var first := body == [];
      newBody := body + ([0xFF, marker] + data);
      if first && marker == 0xE0 { newJfifEnd := |newBody|; }
    }
  }

  lemma FillIrrelevant(p: Piece)
    ensures var q := Strip(p);
            PieceKept(q) == PieceKept(p) && Print(q) == Print(p) && PieceOrientation(q) == PieceOrientation(p)
            && IsJfif(q) == IsJfif(p)
  {
  }

  /** A start-of-scan segment is always kept, and its run is appended right behind it. */
  lemma ScanIsSegment(fill: nat, data: Bytes, run: Bytes)
    ensures var p, q := Scan(fill, data, run), Segment(0, 0xDA, data);
            PieceKept(p) && PieceKept(q) && PieceOrientation(p) == PieceOrientation(q) == None
            && !IsJfif(p) && !IsJfif(q) && Print(p) == Print(q) + run
  {
  }

  /** Everything after the marker byte of a segment: length, payload, and the run when it starts a scan. */
  /** A segment marker's case of the scanner, read in the file. */
  lemma MarkerAt(d: Bytes, at: nat, fill: nat, m: byte)
    requires at <= |d| && m != 0xD9 && !StandaloneMarker(m) && m != 0x00 && m != 0xD8
    ensures ParseMarker(fill, m, d[at..]) ==
            if at + 2 > |d| then Err(TruncatedHeader)
            else
              var len := Be16(d[at], d[at + 1]);
              if len < 2 || at + len > |d| then Err(SegmentPastEnd)
              else if m != 0xDA then Prepend([Segment(fill, m, d[at..at + len])], Parse(d[at + len..]))
              else
                var end := RunEnd(d, at + len);
                if end.None? then Err(NoEnd)
                else Prepend([Scan(fill, d[at..at + len], d[at + len..end.value])], Parse(d[end.value..]))
  {
    hide Parse, RunLength, Prepend;
    var t := d[at..];
    if |t| >= 2 {
      var len := Be16(t[0], t[1]);
      if 2 <= len <= |t| {
        Drops(d, at, len);
        var run := RunLength(d[at + len..]);
        if m == 0xDA && run.Some? { Drops(d, at + len, run.value); }
      }
    }
  }

  method ReadSegment(d: Bytes, at: nat, marker: byte, body: Bytes, orientation: Option<nat>, jfifEnd: nat,
                     ghost fill: nat, ghost done: seq<Piece>)
    returns (next: Result<nat, Error>, newBody: Bytes, newOrientation: Option<nat>, newJfifEnd: nat, ghost p: Piece)
    requires at <= |d| && marker != 0xD9 && !StandaloneMarker(marker) && marker != 0x00 && marker != 0xD8
    requires Seen(done, body, orientation, jfifEnd)
    ensures next.Err? ==> ParseMarker(fill, marker, d[at..]) == Err(next.error)
    ensures next.Ok? ==> at < next.value <= |d|
    ensures next.Ok? ==> ParseMarker(fill, marker, d[at..]) == Prepend([p], Parse(d[next.value..]))
    ensures next.Ok? ==> Seen(done + [p], newBody, newOrientation, newJfifEnd)
  {
    hide Seen, PieceKept, Print, PieceOrientation, IsJfif, Parse, RunLength, SegmentKept;
    MarkerAt(d, at, fill, marker);
    hide ParseMarker;
    newBody, newOrientation, newJfifEnd, p := body, orientation, jfifEnd, End(fill);
    if at + 2 > |d| { next := Err(TruncatedHeader); return; }
    var len := Be16(d[at], d[at + 1]);
    if len < 2 || at + len > |d| { next := Err(SegmentPastEnd); return; }
    var start := at + len;
    var data := d[at..start];
    Drops(d, at, len);
    newBody, newOrientation, newJfifEnd := TakeSegment(marker, data, body, orientation, jfifEnd);
    if marker == 0xDA {
      var end := SkipRun(d, start);
      if end.None? { next := Err(NoEnd); return; }
      var run := d[start..end.value];
      Drops(d, start, end.value - start);
      next, p := Ok(end.value), Scan(fill, data, run);
      ScanIsSegment(fill, data, run);
      Assoc(body, Print(Segment(0, 0xDA, data)), run);
      newBody := newBody + run;
    } else {
      next, p := Ok(start), Segment(fill, marker, data);
      FillIrrelevant(p);
      assert Strip(p) == Segment(0, marker, data);
    }
    SeenStep(done, p, body, orientation, jfifEnd);
  }

  /** One round of the main loop: fill bytes, a marker, and what belongs to it. `ended` says it was end-of-image. */
  method ReadPiece(d: Bytes, at: nat, body: Bytes, orientation: Option<nat>, jfifEnd: nat, ghost done: seq<Piece>)
    returns (next: Result<nat, Error>, ended: bool, newBody: Bytes, newOrientation: Option<nat>, newJfifEnd: nat,
             ghost p: Piece)
    requires at < |d| && Seen(done, body, orientation, jfifEnd)
    ensures next.Err? ==> Parse(d[at..]) == Err(next.error)
    ensures next.Ok? ==> at < next.value <= |d| && Seen(done + [p], newBody, newOrientation, newJfifEnd)
    ensures next.Ok? ==> Parse(d[at..]) == if ended then Ok([p]) else Prepend([p], Parse(d[next.value..]))
  {
    hide Seen, Kept, PrintAll, Orientation;
    ended, newBody, newOrientation, newJfifEnd, p := false, body, orientation, jfifEnd, End(0);
    if d[at] != 0xFF { next := Err(ExpectedMarker); return; }
    var i := SkipFill(d, at);
    if i == |d| { next := Err(NoEnd); return; }
    var marker := d[i];
    i := i + 1;
    ghost var fill := i - at - 2;
    assert d[at..][fill + 2..] == d[i..];
    assert Parse(d[at..]) == ParseMarker(fill, marker, d[i..]);
    if marker == 0xD9 {
      p := End(fill);
      SeenStep(done, p, body, orientation, jfifEnd);
      next, ended, newBody := Ok(i), true, body + [0xFF, 0xD9];
    } else if StandaloneMarker(marker) {
      p := Standalone(fill, marker);
      SeenStep(done, p, body, orientation, jfifEnd);
      next, newBody := Ok(i), body + [0xFF, marker];
    } else if marker == 0x00 || marker == 0xD8 {
      next := Err(UnexpectedMarker);
    } else {
      next, newBody, newOrientation, newJfifEnd, p :=
        ReadSegment(d, i, marker, body, orientation, jfifEnd, fill, done);
    }
  }

  /** Start-of-image, the leading JFIF header, the orientation block when there is one to keep, the rest. */
  method Finish(body: Bytes, orientation: Option<nat>, jfifEnd: nat, ghost done: seq<Piece>) returns (out: Bytes)
    requires Seen(done, body, orientation, jfifEnd)
    ensures out == [0xFF, 0xD8] + PrintAll(Assembled(done))
  {
    SeenBounds(done, body, orientation, jfifEnd);
    BlockPrinted(orientation);
    hide Seen, Assembled, PrintAll, OrientationPieces, OrientationData;
    var head, tail := body[..jfifEnd], body[jfifEnd..];
    ghost var block := PrintAll(OrientationPieces(orientation));
    out := [0xFF, 0xD8] + head;
    if orientation.Some? && 2 <= orientation.value <= 8 {
      out := out + ([0xFF, 0xE1] + OrientationData(orientation.value));
    } else {
      Nil(out);
    }
    Assoc([0xFF, 0xD8], head, block);
    Assoc([0xFF, 0xD8], head + block, tail);
    out := out + tail;
  }

  /** `clean_jpeg`. */
  method CleanJpeg(d: Bytes) returns (r: Result<Bytes, Error>)
    ensures r == Clean(d)
  {
    if |d| < 4 || d[0] != 0xFF || d[1] != 0xD8 { return Err(NoStart); }
    var body: Bytes, orientation: Option<nat>, jfifEnd: nat := [], None, 0;
    var i, ended := 2, false;
    ghost var done: seq<Piece> := [];
    SeenNothing();
    hide Seen, Assembled, PrintAll, ParseMarker;
    assert Parse(d[2..]).Ok? ==> [] + Parse(d[2..]).value == Parse(d[2..]).value;
    while i < |d| && !ended
      invariant 2 <= i <= |d|
      invariant Parse(d[2..]) == if ended then Ok(done) else Prepend(done, Parse(d[i..]))
      invariant Seen(done, body, orientation, jfifEnd)
      decreases |d| - i
    {
      var next; ghost var p;
      next, ended, body, orientation, jfifEnd, p := ReadPiece(d, i, body, orientation, jfifEnd, done);
      if next.Err? { return Err(next.error); }
      i := next.value;
      Advance(done, p, Parse(d[i..]));
      done := done + [p];
    }
    if !ended { return Err(NoEnd); }
    var out := Finish(body, orientation, jfifEnd, done);
    return Ok(out);
  }
}
