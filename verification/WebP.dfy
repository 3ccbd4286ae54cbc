/**
 The WebP attachment check: RIFF chunks as section 2.3 of RFC 9649 lays them out,
 frame headers, and the pixel budget over all frames of a picture.
 */
module WebP {
  import opened Base

  const MAX_PIXELS: int := 20000000

  /** A chunk's four-character code, as its little-endian number, and its payload. */
  datatype Chunk = Chunk(tag: nat, payload: Bytes)

  predicate ChunkOk(c: Chunk) {
    c.tag < 0x1_0000_0000 && |c.payload| < 0x1_0000_0000
  }

  ghost predicate ChunksOk(cs: seq<Chunk>) {
    forall i :: 0 <= i < |cs| ==> ChunkOk(cs[i])
  }

  // ----- chunk encoding ---------------------------------------------------------------------------------

  function Little32(n: nat): (b: Bytes)
    requires n < 0x1_0000_0000
    ensures |b| == 4
  {
    [n % 256, n / 256 % 256, n / 0x1_0000 % 256, n / 0x100_0000]
  }

  function Read32(b: Bytes): (n: nat)
    requires |b| == 4
    ensures n < 0x1_0000_0000
  {
    b[0] as int + b[1] as int * 256 + b[2] as int * 0x1_0000 + b[3] as int * 0x100_0000
  }

  lemma Read32Little(n: nat)
    requires n < 0x1_0000_0000
    ensures Read32(Little32(n)) == n
  {
    assert n == n / 256 * 256 + n % 256;
    assert n / 256 == n / 0x1_0000 * 256 + n / 256 % 256;
    assert n / 0x1_0000 == n / 0x100_0000 * 256 + n / 0x1_0000 % 256;
  }

  lemma Little32Read(b: Bytes)
    requires |b| == 4
    ensures Little32(Read32(b)) == b
  {
    var n := Read32(b);
    var high := b[2] as int + b[3] as int * 256;
    var mid := b[1] as int + high * 256;
    assert n == mid * 256 + b[0];
    assert n / 256 == mid && n % 256 == b[0];
    assert n / 0x1_0000 == high && mid % 256 == b[1];
    assert n / 0x100_0000 == b[3] && high % 256 == b[2];
  }

  function Padding(size: nat): Bytes {
    if size % 2 == 1 then [0] else []
  }

  function EncodeChunk(c: Chunk): Bytes
    requires ChunkOk(c)
  {
    Little32(c.tag) + Little32(|c.payload|) + c.payload + Padding(|c.payload|)
  }

  function Encode(cs: seq<Chunk>): Bytes
    requires ChunksOk(cs)
  {
    if cs == [] then [] else EncodeChunk(cs[0]) + Encode(cs[1..])
  }

  // ----- scanning -------------------------------------------------------------------------------------------

  /** The chunk at the head of nonempty `b`, or nothing if it is truncated or badly padded. */
  function Head(b: Bytes): (r: Option<Chunk>)
    ensures r.Some? ==> ChunkOk(r.value) && 8 + |r.value.payload| + |r.value.payload| % 2 <= |b|
  {
    if |b| < 8 then None
    else
      var size := Read32(b[4..8]);
      if 8 + size + size % 2 > |b| then None
      else if size % 2 != 0 && b[8 + size] != 0 then None
      else Some(Chunk(Read32(b[..4]), b[8..8 + size]))
  }

  function Length(c: Chunk): nat {
    8 + |c.payload| + |c.payload| % 2
  }

  function Decode(b: Bytes): Option<seq<Chunk>> {
    if b == [] then Some([])
    else if Head(b).None? then None
    else
      var c := Head(b).value;
      var rest := Decode(b[Length(c)..]);
      if rest.None? then None else Some([c] + rest.value)
  }

  lemma HeadEncode(c: Chunk, rest: Bytes)
    requires ChunkOk(c)
    ensures |EncodeChunk(c)| == Length(c) && Head(EncodeChunk(c) + rest) == Some(c)
    ensures (EncodeChunk(c) + rest)[Length(c)..] == rest
  {
    var b := EncodeChunk(c) + rest;
    var n := |c.payload|;
    assert b[..4] == Little32(c.tag);
    assert b[4..8] == Little32(n);
    Read32Little(c.tag);
    Read32Little(n);
    assert b[8..8 + n] == c.payload;
    if n % 2 == 1 { assert b[8 + n] == 0; }
  }

  /** Scanning the encoding of any chunk list visits exactly that list. */
  lemma {:induction false} DecodeEncode(cs: seq<Chunk>)
    requires ChunksOk(cs)
    ensures Decode(Encode(cs)) == Some(cs)
  {
    if cs != [] {
      var rest := Encode(cs[1..]);
      HeadEncode(cs[0], rest);
      DecodeEncode(cs[1..]);
      assert Encode(cs) == EncodeChunk(cs[0]) + rest != [];
      assert [cs[0]] + cs[1..] == cs;
    }
  }

  lemma HeadTiles(b: Bytes)
    requires Head(b).Some?
    ensures b == EncodeChunk(Head(b).value) + b[Length(Head(b).value)..]
  {
    var c := Head(b).value;
    var n := |c.payload|;
    Little32Read(b[..4]);
    Little32Read(b[4..8]);
    assert Little32(n) == b[4..8];
    assert Padding(n) == b[8 + n..Length(c)];
    assert b == b[..4] + b[4..8] + b[8..8 + n] + b[8 + n..Length(c)] + b[Length(c)..];
  }

  /** Whatever bytes are scanned to the end are exactly the encoding of the chunks visited. */
  lemma {:induction false} EncodeDecode(b: Bytes)
    requires Decode(b).Some?
    ensures ChunksOk(Decode(b).value) && Encode(Decode(b).value) == b
    decreases |b|
  {
    if b != [] {
      var c := Head(b).value;
      HeadTiles(b);
      EncodeDecode(b[Length(c)..]);
      var cs := Decode(b).value;
      assert cs[1..] == Decode(b[Length(c)..]).value;
    }
  }

  /** scanWebPChunks over data[start..end]; the visits are returned in order. */
  method Scan(data: Bytes, start: nat, end: nat) returns (visited: Option<seq<Chunk>>)
    requires start <= end <= |data|
    ensures visited == Decode(data[start..end])
  {
    var chunks: seq<Chunk> := [];
    var offset := start;
    BeforeNone(Decode(data[start..end]));
    while offset < end
      invariant start <= offset <= end
      invariant Decode(data[start..end]) == Before(chunks, Decode(data[offset..end]))
      decreases end - offset
    {
      var c := HeadAt(data, offset, end);
      if c.None? { return None; }
      ScanNext(data, offset, end, chunks, c.value);
      chunks := chunks + [c.value];
      offset := offset + Length(c.value);
    }
    assert data[offset..end] == [];
    assert chunks + [] == chunks;
    visited := Some(chunks);
  }

  lemma ScanNext(data: Bytes, offset: nat, end: nat, chunks: seq<Chunk>, c: Chunk)
    requires offset < end <= |data| && Head(data[offset..end]) == Some(c)
    ensures offset + Length(c) <= end
    ensures Before(chunks, Decode(data[offset..end])) == Before(chunks + [c], Decode(data[offset + Length(c)..end]))
  {
    var rest := Decode(data[offset + Length(c)..end]);
    assert data[offset..end][Length(c)..] == data[offset + Length(c)..end];
    assert Decode(data[offset..end]) == Before([c], rest);
    BeforeStep(chunks, c, rest);
  }

  /** One turn of the scan: the header, the bounds, the padding. */
  method HeadAt(data: Bytes, offset: nat, end: nat) returns (c: Option<Chunk>)
    requires offset < end <= |data|
    ensures c == Head(data[offset..end])
  {
    ghost var b := data[offset..end];
    if offset + 8 > end { return None; }
    Slice(data, offset, end, 4, 8);
    var size := Read32(data[offset + 4..offset + 8]);
    var chunkEnd := offset + 8 + size + size % 2;
    if chunkEnd > end { return None; }
    if size % 2 != 0 && data[offset + 8 + size] != 0 { return None; }
    Slice(data, offset, end, 0, 4);
    Slice(data, offset, end, 8, 8 + size);
    c := Some(Chunk(Read32(data[offset..offset + 4]), data[offset + 8..offset + 8 + size]));
  }

  lemma Slice(data: Bytes, offset: nat, end: nat, lo: nat, hi: nat)
    requires offset <= end <= |data| && lo <= hi <= end - offset
    ensures data[offset..end][lo..hi] == data[offset + lo..offset + hi]
  {
    var b := data[offset..end];
    var x, y := b[lo..hi], data[offset + lo..offset + hi];
    assert |x| == |y|;
    assert forall k :: 0 <= k < |x| ==> x[k] == b[lo + k] == data[offset + lo + k] == y[k];
  }

  function Before(chunks: seq<Chunk>, rest: Option<seq<Chunk>>): Option<seq<Chunk>> {
    if rest.None? then None else Some(chunks + rest.value)
  }

  lemma BeforeNone(rest: Option<seq<Chunk>>)
    ensures Before([], rest) == rest
  {
    if rest.Some? { assert [] + rest.value == rest.value; }
  }

  lemma BeforeStep(chunks: seq<Chunk>, c: Chunk, rest: Option<seq<Chunk>>)
    ensures Before(chunks, Before([c], rest)) == Before(chunks + [c], rest)
  {
    if rest.Some? { assert chunks + ([c] + rest.value) == chunks + [c] + rest.value; }
  }

  // ----- frame headers ------------------------------------------------------------------------------------------

  // The codes spell VP8X, ANIM, ANMF, "VP8 " and VP8L.
  const VP8X: nat := 0x58385056
  const ANIM: nat := 0x4d494e41
  const ANMF: nat := 0x464d4e41
  const LOSSY: nat := 0x20385056
  const LOSSLESS: nat := 0x4c385056

  function Read24(b: Bytes): (n: nat)
    requires |b| == 3
  {
    b[0] as int + b[1] as int * 256 + b[2] as int * 0x1_0000
  }

  datatype Size = Size(width: int, height: int)

  predicate IsStill(c: Chunk) {
    c.tag == LOSSY || c.tag == LOSSLESS
  }

  /** webPFrameDimensions; masks are written as remainders and quotients. */
  function FrameSize(c: Chunk): (r: Option<Size>)
    ensures r.Some? ==> r.value.width >= 0 && r.value.height >= 0
  {
    var p := c.payload;
    if c.tag == LOSSY then
      if |p| < 10 || p[0] % 2 != 0 || p[3] != 0x9d || p[4] != 0x01 || p[5] != 0x2a then None
      else Some(Size((p[6] as int + p[7] as int * 256) % 0x4000, (p[8] as int + p[9] as int * 256) % 0x4000))
    else if c.tag == LOSSLESS then
      if |p| < 5 || p[0] != 0x2f || p[4] >= 32 then None
      else
        Some(Size(1 + p[1] as int + p[2] as int % 64 * 256,
                  1 + p[2] as int / 64 + p[3] as int * 4 + p[4] as int % 16 * 1024))
    else None
  }

  /** The lossless header packs width - 1 and height - 1 into 14 bits each. */
  function LosslessHeader(width: int, height: int, alpha: bool): Bytes
    requires 1 <= width <= 0x4000 && 1 <= height <= 0x4000
  {
    var w, h := width - 1, height - 1;
    [0x2f, w % 256, w / 256 + 64 * (h % 4), h / 4 % 256, h / 1024 + (if alpha then 16 else 0)]
  }

  /** Reading a lossless header gives back the size it was written for, whatever follows it. */
  lemma LosslessRoundTrip(width: int, height: int, alpha: bool, rest: Bytes)
    requires 1 <= width <= 0x4000 && 1 <= height <= 0x4000
    ensures FrameSize(Chunk(LOSSLESS, LosslessHeader(width, height, alpha) + rest)) == Some(Size(width, height))
  {
    var w, h := width - 1, height - 1;
    var p := LosslessHeader(width, height, alpha) + rest;
    assert p[..5] == LosslessHeader(width, height, alpha);
    WidthBits(w, h);
    HeightBits(h, if alpha then 16 else 0);
    assert p[1] as int + p[2] as int % 64 * 256 == w;
    assert p[2] as int / 64 + p[3] as int * 4 + p[4] as int % 16 * 1024 == h;
  }

  lemma WidthBits(w: int, h: int)
    requires 0 <= w < 0x4000 && h >= 0
    ensures (w / 256 + 64 * (h % 4)) % 64 == w / 256 && (w / 256 + 64 * (h % 4)) / 64 == h % 4
    ensures w % 256 + w / 256 * 256 == w
  {
  }

  lemma HeightBits(h: int, alpha: int)
    requires 0 <= h < 0x4000 && (alpha == 0 || alpha == 16)
    ensures (h / 1024 + alpha) % 16 == h / 1024 && h / 1024 + alpha < 32
    ensures h % 4 + h / 4 % 256 * 4 + h / 1024 * 1024 == h
  {
    assert h / 4 == h / 1024 * 256 + h / 4 % 256;
  }

  // ----- animation frames -------------------------------------------------------------------------------------------

  datatype Frame = Frame(x: int, y: int, width: int, height: int)

  function FrameOf(payload: Bytes): Frame
    requires |payload| >= 16
  {
    Frame(Read24(payload[0..3]) * 2, Read24(payload[3..6]) * 2, Read24(payload[6..9]) + 1, Read24(payload[9..12]) + 1)
  }

  function CountStill(cs: seq<Chunk>): nat {
    if cs == [] then 0 else CountStill(cs[..|cs| - 1]) + (if IsStill(cs[|cs| - 1]) then 1 else 0)
  }

  /** Exactly one image among the chunks, of the announced size. */
  ghost predicate OneImage(cs: seq<Chunk>, size: Size) {
    (forall i :: 0 <= i < |cs| && IsStill(cs[i]) ==> FrameSize(cs[i]) == Some(size)) && CountStill(cs) == 1
  }

  /** validateWebPFrameChunks. */
  ghost predicate InnerOk(b: Bytes, width: int, height: int) {
    Decode(b).Some? && OneImage(Decode(b).value, Size(width, height))
  }

  method CheckImages(cs: seq<Chunk>, size: Size) returns (ok: bool)
    ensures ok <==> OneImage(cs, size)
  {
    var frames := 0;
    var i := 0;
    while i < |cs|
      invariant 0 <= i <= |cs| && frames == CountStill(cs[..i])
      invariant forall k :: 0 <= k < i && IsStill(cs[k]) ==> FrameSize(cs[k]) == Some(size)
    {
      assert cs[..i + 1][..i] == cs[..i];
      if IsStill(cs[i]) {
        if FrameSize(cs[i]) != Some(size) { return false; }
        frames := frames + 1;
      }
      i := i + 1;
    }
    assert cs[..i] == cs;
    ok := frames == 1;
  }

  method CheckInner(data: Bytes, width: int, height: int) returns (ok: bool)
    ensures ok <==> InnerOk(data, width, height)
  {
    var visited := Scan(data, 0, |data|);
    assert data[0..|data|] == data;
    if visited.None? { return false; }
    ok := CheckImages(visited.value, Size(width, height));
  }

  // ----- the whole picture ---------------------------------------------------------------------------------

  datatype State = State(extended: bool, animated: bool, hasAnimation: bool, width: int, height: int,
                         still: nat, frames: nat, pixels: int)

  const INITIAL: State := State(false, false, false, 0, 0, 0, 0, 0)

  /** The frame lies in the canvas and holds one image of its size. */
  ghost predicate FrameOk(c: Chunk, width: int, height: int) {
    && |c.payload| >= 16
    && var f := FrameOf(c.payload);
       f.x + f.width <= width && f.y + f.height <= height && InnerOk(c.payload[16..], f.width, f.height)
  }

  /** An extended header without reserved bits. */
  predicate IsHeader(c: Chunk) {
    var p := c.payload;
    c.tag == VP8X && |p| == 10 && p[0] % 2 == 0 && p[0] < 64 && p[1] == 0 && p[2] == 0 && p[3] == 0
  }

  /** The header announces an animation. */
  predicate Flag(c: Chunk)
    requires IsHeader(c)
  {
    c.payload[0] / 2 % 2 == 1
  }

  function Canvas(c: Chunk): Size
    requires IsHeader(c)
  {
    Size(Read24(c.payload[4..7]) + 1, Read24(c.payload[7..10]) + 1)
  }

  /** The visitor of operatorWebPDimensions. */
  ghost function Visit(s: State, c: Chunk, first: bool): Option<State> {
    var p := c.payload;
    if c.tag == VP8X then
      if s.extended || !first || !IsHeader(c) then None
      else Some(s.(extended := true, animated := Flag(c), width := Canvas(c).width, height := Canvas(c).height))
    else if c.tag == ANIM then
      if !s.extended || !s.animated || s.hasAnimation || |p| != 6 then None else Some(s.(hasAnimation := true))
    else if c.tag == ANMF then
      if !s.extended || !s.animated || !s.hasAnimation || !FrameOk(c, s.width, s.height) then None
      else
        var pixels := s.pixels + Pixels(c);
        if pixels > MAX_PIXELS then None else Some(s.(pixels := pixels, frames := s.frames + 1))
    else if IsStill(c) then
      if s.animated || FrameSize(c).None? then None
      else
        var size := FrameSize(c).value;
        if s.extended && (size.width != s.width || size.height != s.height) then None
        else Some(s.(pixels := s.pixels + Pixels(c), width := size.width, height := size.height, still := s.still + 1))
    else Some(s)
  }

  function Pixels(c: Chunk): int {
    if c.tag == ANMF then
      if |c.payload| < 16 then 0 else FrameOf(c.payload).width * FrameOf(c.payload).height
    else if IsStill(c) && FrameSize(c).Some? then FrameSize(c).value.width * FrameSize(c).value.height
    else 0
  }

  ghost function VisitAll(cs: seq<Chunk>): Option<State> {
    if cs == [] then Some(INITIAL)
    else
      var s := VisitAll(cs[..|cs| - 1]);
      if s.None? then None else Visit(s.value, cs[|cs| - 1], |cs| == 1)
  }

  predicate Complete(s: State) {
    && (if s.extended && s.animated then s.hasAnimation && s.frames != 0
        && s.still == 0 else s.still == 1 && s.frames == 0)
    && s.pixels <= MAX_PIXELS
  }

  /** operatorWebPDimensions, as a function of the bytes. */
  ghost function Measure(data: Bytes): Option<Size> {
    if |data| < 20 || Read32(data[4..8]) + 8 != |data| || Decode(data[12..]).None? then None
    else
      var s := VisitAll(Decode(data[12..]).value);
      if s.None? || !Complete(s.value) then None else Some(Size(s.value.width, s.value.height))
  }

  method VisitOne(s: State, c: Chunk, first: bool) returns (r: Option<State>)
    ensures r == Visit(s, c, first)
  {
    var p := c.payload;
    if c.tag == VP8X {
      if s.extended || !first || !IsHeader(c) { return None; }
      r := Some(s.(extended := true, animated := Flag(c), width := Canvas(c).width, height := Canvas(c).height));
    } else if c.tag == ANIM {
      if !s.extended || !s.animated || s.hasAnimation || |p| != 6 { return None; }
      r := Some(s.(hasAnimation := true));
    } else if c.tag == ANMF {
      if !s.extended || !s.animated || !s.hasAnimation || |p| < 16 { return None; }
      var f := FrameOf(p);
      if f.x + f.width > s.width || f.y + f.height > s.height { return None; }
      var inner := CheckInner(p[16..], f.width, f.height);
      if !inner { return None; }
      var pixels := s.pixels + f.width * f.height;
      if pixels > MAX_PIXELS { return None; }
      r := Some(s.(pixels := pixels, frames := s.frames + 1));
    } else if IsStill(c) {
      if s.animated { return None; }
      var size := FrameSize(c);
      if size.None? || (s.extended && (size.value.width != s.width || size.value.height != s.height)) { return None; }
      r := Some(s.(pixels := s.pixels + size.value.width * size.value.height, width := size.value.width,
                   height := size.value.height, still := s.still + 1));
    } else {
      r := Some(s);
    }
  }

  /** operatorWebPDimensions accepts exactly the encodings of animations and pictures, with their size. */
  method Dimensions(data: Bytes) returns (r: Option<Size>)
    ensures r == Measure(data)
    ensures forall size :: r == Some(size) <==> Accepts(data, size)
  {
    forall size ensures Measure(data) == Some(size) <==> Accepts(data, size) { AcceptedIff(data, size); }
    if |data| < 20 || Read32(data[4..8]) + 8 != |data| { return None; }
    var visited := Scan(data, 12, |data|);
    assert data[12..|data|] == data[12..];
    if visited.None? { return None; }
    var s := VisitChunks(visited.value);
    if s.None? || !Complete(s.value) { return None; }
    r := Some(Size(s.value.width, s.value.height));
  }

  method VisitChunks(cs: seq<Chunk>) returns (r: Option<State>)
    ensures r == VisitAll(cs)
  {
    var s := INITIAL;
    var i := 0;
    while i < |cs|
      invariant 0 <= i <= |cs| && VisitAll(cs[..i]) == Some(s)
    {
      VisitPrefix(cs, i);
      var next := VisitOne(s, cs[i], i == 0);
      if next.None? {
        VisitStops(cs, i + 1);
        return None;
      }
      s := next.value;
      i := i + 1;
    }
    assert cs[..i] == cs;
    r := Some(s);
  }

  lemma VisitPrefix(cs: seq<Chunk>, i: nat)
    requires i < |cs| && VisitAll(cs[..i]).Some?
    ensures VisitAll(cs[..i + 1]) == Visit(VisitAll(cs[..i]).value, cs[i], i == 0)
  {
    assert cs[..i + 1][..i] == cs[..i];
  }

  lemma {:induction false} VisitStops(cs: seq<Chunk>, i: nat)
    requires i <= |cs| && VisitAll(cs[..i]).None?
    ensures VisitAll(cs).None?
    decreases |cs|
  {
    if i < |cs| {
      assert cs[..|cs| - 1][..i] == cs[..i];
      VisitStops(cs[..|cs| - 1], i);
    } else {
      assert cs[..i] == cs;
    }
  }

  // ----- the visitor's state, read off the chunks ----------------------------------------------------------

  function TotalPixels(cs: seq<Chunk>): int {
    if cs == [] then 0 else TotalPixels(cs[..|cs| - 1]) + Pixels(cs[|cs| - 1])
  }

  function CountFrames(cs: seq<Chunk>): nat {
    if cs == [] then 0 else CountFrames(cs[..|cs| - 1]) + (if cs[|cs| - 1].tag == ANMF then 1 else 0)
  }

  function LastSize(cs: seq<Chunk>): Option<Size> {
    if cs == [] then None else if IsStill(cs[|cs| - 1]) then FrameSize(cs[|cs| - 1]) else LastSize(cs[..|cs| - 1])
  }

  predicate Extended(cs: seq<Chunk>) {
    cs != [] && IsHeader(cs[0])
  }

  predicate Animated(cs: seq<Chunk>) {
    Extended(cs) && Flag(cs[0])
  }

  predicate HasAnim(cs: seq<Chunk>) {
    exists j :: 0 <= j < |cs| && cs[j].tag == ANIM
  }

  function SizeOf(cs: seq<Chunk>): Size {
    if Extended(cs) then Canvas(cs[0]) else if LastSize(cs).Some? then LastSize(cs).value else Size(0, 0)
  }

  function StateOf(cs: seq<Chunk>): State {
    State(Extended(cs), Animated(cs), HasAnim(cs), SizeOf(cs).width, SizeOf(cs).height, CountStill(cs),
        CountFrames(cs), TotalPixels(cs))
  }

  /** A chunk may follow these. */
  ghost predicate Allowed(before: seq<Chunk>, c: Chunk) {
    if c.tag == VP8X then before == [] && IsHeader(c)
    else if c.tag == ANIM then Animated(before) && !HasAnim(before) && |c.payload| == 6
    else if c.tag == ANMF then
      && Animated(before) && HasAnim(before) && FrameOk(c, Canvas(before[0]).width, Canvas(before[0]).height)
      && TotalPixels(before) + Pixels(c) <= MAX_PIXELS
    else if IsStill(c) then
      !Animated(before) && FrameSize(c).Some? && (Extended(before) ==> FrameSize(c) == Some(Canvas(before[0])))
    else true
  }

  ghost predicate Fine(cs: seq<Chunk>) {
    forall i :: 0 <= i < |cs| ==> Allowed(cs[..i], cs[i])
  }

  lemma StateNext(front: seq<Chunk>, c: Chunk)
    ensures var cs := front + [c];
            && CountStill(cs) == CountStill(front) + (if IsStill(c) then 1 else 0)
            && CountFrames(cs) == CountFrames(front) + (if c.tag == ANMF then 1 else 0)
            && TotalPixels(cs) == TotalPixels(front) + Pixels(c)
            && LastSize(cs) == (if IsStill(c) then FrameSize(c) else LastSize(front))
            && HasAnim(cs) == (HasAnim(front) || c.tag == ANIM)
            && (front != [] ==> Extended(cs) == Extended(front) && Animated(cs) == Animated(front) && cs[0] == front[0])
  {
    var cs := front + [c];
    assert cs[..|front|] == front && cs[|front|] == c;
    if HasAnim(front) {
      var j :| 0 <= j < |front| && front[j].tag == ANIM;
      assert cs[j].tag == ANIM;
    }
  }

  lemma VisitNext(front: seq<Chunk>, c: Chunk)
    ensures Visit(StateOf(front), c, front == []) == if Allowed(front, c) then Some(StateOf(front + [c])) else None
  {
    StateNext(front, c);
  }

  lemma FineNext(front: seq<Chunk>, c: Chunk)
    ensures Fine(front + [c]) <==> Fine(front) && Allowed(front, c)
  {
    var cs := front + [c];
    assert cs[..|front|] == front && cs[|front|] == c;
    assert forall i :: 0 <= i < |front| ==> cs[..i] == front[..i] && cs[i] == front[i];
  }

  /** The visitor goes through exactly if every chunk may follow those before it, and its state says what they are. */
  lemma {:induction false} VisitIs(cs: seq<Chunk>)
    ensures VisitAll(cs) == if Fine(cs) then Some(StateOf(cs)) else None
  {
    if cs != [] {
      var front, last := cs[..|cs| - 1], cs[|cs| - 1];
      assert cs == front + [last];
      VisitIs(front);
      VisitNext(front, last);
      FineNext(front, last);
    }
  }

  // ----- what acceptance means -----------------------------------------------------------------------------

  ghost predicate FramesOk(cs: seq<Chunk>, width: int, height: int) {
    forall i :: 0 <= i < |cs| && cs[i].tag == ANMF ==> FrameOk(cs[i], width, height)
  }

  predicate OnlyAt(cs: seq<Chunk>, tag: nat, a: nat) {
    a < |cs| && forall i :: 0 <= i < |cs| ==> (cs[i].tag == tag <==> i == a)
  }

  /**
   An animation: a header that says so, first and only; one animation chunk before all
   frames; at least one frame, every one in the canvas with one image of its size; no
   image outside a frame; all frames together within the budget.
   */
  ghost predicate Animation(cs: seq<Chunk>, size: Size) {
    && OnlyAt(cs, VP8X, 0) && IsHeader(cs[0]) && Flag(cs[0]) && size == Canvas(cs[0])
    && (exists a: nat :: OnlyAt(cs, ANIM, a) && |cs[a].payload| == 6 && forall i :: 0 <= i < a ==> cs[i].tag != ANMF)
    && (exists i :: 0 <= i < |cs| && cs[i].tag == ANMF) && FramesOk(cs, size.width, size.height)
    && (forall i :: 0 <= i < |cs| ==> !IsStill(cs[i]))
    && TotalPixels(cs) <= MAX_PIXELS
  }

  ghost predicate ImageAt(cs: seq<Chunk>, k: nat) {
    k < |cs| && forall i :: 0 <= i < |cs| ==> (IsStill(cs[i]) <==> i == k)
  }

  /**
   A picture: exactly one image, which gives the size and is within the budget; nothing
   of an animation; and if there is a header it comes first, announces no animation and
   has the same size.
   */
  ghost predicate Picture(cs: seq<Chunk>, size: Size) {
    && (exists k: nat :: ImageAt(cs, k) && FrameSize(cs[k]) == Some(size))
    && (forall i :: 0 <= i < |cs| ==> cs[i].tag != ANIM && cs[i].tag != ANMF)
    && (forall i :: 0 <= i < |cs| && cs[i].tag == VP8X ==>
        i == 0 && IsHeader(cs[0]) && !Flag(cs[0]) && size == Canvas(cs[0]))
    && size.width * size.height <= MAX_PIXELS
  }

  ghost predicate Form(cs: seq<Chunk>, size: Size) {
    Animation(cs, size) || Picture(cs, size)
  }

  /** The bytes carry their own length and, after twelve bytes, the chunks of an animation or a picture. */
  ghost predicate Accepts(data: Bytes, size: Size) {
    && |data| >= 20 && Read32(data[4..8]) + 8 == |data|
    && exists cs :: ChunksOk(cs) && data[12..] == Encode(cs) && Form(cs, size)
  }

  // ----- counting ------------------------------------------------------------------------------------------

  lemma {:induction false} NoFrames(cs: seq<Chunk>)
    ensures CountFrames(cs) == 0 <==> forall i :: 0 <= i < |cs| ==> cs[i].tag != ANMF
    ensures CountStill(cs) == 0 <==> forall i :: 0 <= i < |cs| ==> !IsStill(cs[i])
  {
    if cs != [] {
      NoFrames(cs[..|cs| - 1]);
      assert cs == cs[..|cs| - 1] + [cs[|cs| - 1]];
    }
  }

  lemma {:induction false} NoImages(cs: seq<Chunk>)
    requires forall i :: 0 <= i < |cs| ==> !IsStill(cs[i]) && cs[i].tag != ANMF
    ensures CountStill(cs) == 0 && TotalPixels(cs) == 0 && LastSize(cs) == None
  {
    if cs != [] { NoImages(cs[..|cs| - 1]); }
  }

  lemma {:induction false} OneStill(cs: seq<Chunk>, k: nat)
    requires ImageAt(cs, k) && forall i :: 0 <= i < |cs| ==> cs[i].tag != ANMF
    ensures CountStill(cs) == 1 && TotalPixels(cs) == Pixels(cs[k]) && LastSize(cs) == FrameSize(cs[k])
  {
    var front := cs[..|cs| - 1];
    if k == |cs| - 1 {
      NoImages(front);
    } else {
      assert forall i :: 0 <= i < |front| ==> front[i] == cs[i];
      OneStill(front, k);
    }
  }

  lemma {:induction false} FindStill(cs: seq<Chunk>) returns (k: nat)
    requires CountStill(cs) == 1
    ensures ImageAt(cs, k)
  {
    var front := cs[..|cs| - 1];
    assert cs == front + [cs[|cs| - 1]];
    if IsStill(cs[|cs| - 1]) {
      NoFrames(front);
      k := |cs| - 1;
    } else {
      k := FindStill(front);
      assert forall i :: 0 <= i < |front| ==> front[i] == cs[i];
    }
  }

  lemma Area(width: int, height: int)
    requires width >= 0 && height >= 0
    ensures width * height >= 0
  {
  }

  lemma PixelsPositive(c: Chunk)
    ensures Pixels(c) >= 0
  {
    if c.tag == ANMF && |c.payload| >= 16 {
      Area(FrameOf(c.payload).width, FrameOf(c.payload).height);
    } else if IsStill(c) && FrameSize(c).Some? {
      Area(FrameSize(c).value.width, FrameSize(c).value.height);
    }
  }

  lemma {:induction false} PixelsGrow(cs: seq<Chunk>, i: nat)
    requires i <= |cs|
    ensures TotalPixels(cs[..i]) <= TotalPixels(cs)
    decreases |cs|
  {
    if i == |cs| {
      assert cs[..i] == cs;
    } else {
      var front := cs[..|cs| - 1];
      PixelsGrow(front, i);
      PixelsPositive(cs[|cs| - 1]);
      assert front[..i] == cs[..i];
    }
  }

  lemma PixelsNext(cs: seq<Chunk>, i: nat)
    requires i < |cs|
    ensures TotalPixels(cs[..i]) + Pixels(cs[i]) <= TotalPixels(cs)
  {
    assert cs[..i + 1][..i] == cs[..i];
    PixelsGrow(cs, i + 1);
  }

  /** What a proper beginning of the chunks says of the header. */
  lemma HeadOf(cs: seq<Chunk>, i: nat)
    requires 1 <= i <= |cs|
    ensures cs[..i][0] == cs[0] && Extended(cs[..i]) == Extended(cs) && Animated(cs[..i]) == Animated(cs)
  {
  }

  lemma AnimBefore(cs: seq<Chunk>, i: nat)
    requires i <= |cs|
    ensures HasAnim(cs[..i]) <==> exists j :: 0 <= j < i && cs[j].tag == ANIM
  {
    if HasAnim(cs[..i]) {
      var j :| 0 <= j < i && cs[..i][j].tag == ANIM;
      assert cs[j].tag == ANIM;
    }
    if j :| 0 <= j < i && cs[j].tag == ANIM {
      assert cs[..i][j].tag == ANIM;
    }
  }

  // ----- the two forms -------------------------------------------------------------------------------------

  lemma AnimationIsFine(cs: seq<Chunk>, size: Size, i: nat)
    requires Animation(cs, size) && i < |cs|
    ensures Allowed(cs[..i], cs[i])
  {
    var a: nat :| OnlyAt(cs, ANIM, a) && |cs[a].payload| == 6 && forall j :: 0 <= j < a ==> cs[j].tag != ANMF;
    if i > 0 { HeadOf(cs, i); }
    AnimBefore(cs, i);
    PixelsNext(cs, i);
    assert cs[0].tag == VP8X && cs[a].tag == ANIM;
  }

  lemma AnimationComplete(cs: seq<Chunk>, size: Size)
    requires Animation(cs, size)
    ensures Fine(cs) && Complete(StateOf(cs)) && SizeOf(cs) == size
  {
    forall i | 0 <= i < |cs| ensures Allowed(cs[..i], cs[i]) { AnimationIsFine(cs, size, i); }
    NoFrames(cs);
    var a: nat :| OnlyAt(cs, ANIM, a);
    assert cs[a].tag == ANIM;
  }

  lemma PictureIsFine(cs: seq<Chunk>, size: Size, i: nat)
    requires Picture(cs, size) && i < |cs|
    ensures Allowed(cs[..i], cs[i])
  {
    var k: nat :| ImageAt(cs, k) && FrameSize(cs[k]) == Some(size);
    if i > 0 { HeadOf(cs, i); }
  }

  lemma PictureComplete(cs: seq<Chunk>, size: Size)
    requires Picture(cs, size)
    ensures Fine(cs) && Complete(StateOf(cs)) && SizeOf(cs) == size
  {
    forall i | 0 <= i < |cs| ensures Allowed(cs[..i], cs[i]) { PictureIsFine(cs, size, i); }
    var k: nat :| ImageAt(cs, k) && FrameSize(cs[k]) == Some(size);
    OneStill(cs, k);
    NoFrames(cs);
    assert IsStill(cs[k]);
  }

  lemma AnimatedForm(cs: seq<Chunk>)
    requires Fine(cs) && Complete(StateOf(cs)) && Animated(cs)
    ensures Animation(cs, SizeOf(cs))
  {
    NoFrames(cs);
    forall i | 0 <= i < |cs| && cs[i].tag == VP8X ensures i == 0 { assert Allowed(cs[..i], cs[i]); }
    var a :| 0 <= a < |cs| && cs[a].tag == ANIM;
    assert Allowed(cs[..a], cs[a]);
    AnimBefore(cs, a);
    forall i | 0 <= i < |cs| && cs[i].tag == ANIM ensures i == a { OneAnim(cs, a, i); }
    forall i | 0 <= i < a ensures cs[i].tag != ANMF {
      assert Allowed(cs[..i], cs[i]);
      AnimBefore(cs, i);
    }
    assert OnlyAt(cs, ANIM, a);
    forall i | 0 <= i < |cs| && cs[i].tag == ANMF ensures FrameOk(cs[i], SizeOf(cs).width, SizeOf(cs).height) {
      assert Allowed(cs[..i], cs[i]);
      HeadOf(cs, i);
    }
  }

  lemma OneAnim(cs: seq<Chunk>, a: nat, b: nat)
    requires Fine(cs) && a < |cs| && b < |cs| && cs[a].tag == ANIM && cs[b].tag == ANIM
    ensures a == b
  {
    assert Allowed(cs[..a], cs[a]) && Allowed(cs[..b], cs[b]);
    AnimBefore(cs, a);
    AnimBefore(cs, b);
  }

  lemma StillForm(cs: seq<Chunk>)
    requires Fine(cs) && Complete(StateOf(cs)) && !Animated(cs)
    ensures Picture(cs, SizeOf(cs))
  {
    NoFrames(cs);
    var k := FindStill(cs);
    OneStill(cs, k);
    assert Allowed(cs[..k], cs[k]);
    if k > 0 { HeadOf(cs, k); }
    forall i | 0 <= i < |cs| ensures cs[i].tag != ANIM && (cs[i].tag == VP8X ==> i == 0) {
      assert Allowed(cs[..i], cs[i]);
      if i > 0 { HeadOf(cs, i); }
    }
    assert Allowed(cs[..0], cs[0]);
  }

  lemma FormsIff(cs: seq<Chunk>, size: Size)
    ensures Fine(cs) && Complete(StateOf(cs)) && SizeOf(cs) == size <==> Form(cs, size)
  {
    if Animation(cs, size) { AnimationComplete(cs, size); }
    if Picture(cs, size) { PictureComplete(cs, size); }
    if Fine(cs) && Complete(StateOf(cs)) {
      if Animated(cs) { AnimatedForm(cs); } else { StillForm(cs); }
    }
  }

  /** Bytes that decode are the encoding of just the chunks they decode to. */
  lemma EncodedIff(b: Bytes, cs: seq<Chunk>)
    ensures Decode(b) == Some(cs) <==> ChunksOk(cs) && b == Encode(cs)
  {
    if Decode(b) == Some(cs) { EncodeDecode(b); }
    if ChunksOk(cs) { DecodeEncode(cs); }
  }

  lemma DecodedIff(b: Bytes, size: Size)
    ensures (exists cs :: ChunksOk(cs) && b == Encode(cs) && Form(cs, size)) <==>
              Decode(b).Some? && Form(Decode(b).value, size)
  {
    forall cs ensures Decode(b) == Some(cs) <==> ChunksOk(cs) && b == Encode(cs) { EncodedIff(b, cs); }
  }

  /** Exactly the encodings of animations and pictures are accepted, with their size. */
  lemma AcceptedIff(data: Bytes, size: Size)
    ensures Measure(data) == Some(size) <==> Accepts(data, size)
  {
    if |data| >= 20 && Read32(data[4..8]) + 8 == |data| {
      DecodedIff(data[12..], size);
      if Decode(data[12..]).Some? {
        VisitIs(Decode(data[12..]).value);
        FormsIff(Decode(data[12..]).value, size);
      }
    }
  }

  /**
   An accepted picture is the encoding of its chunks. Its frames together stay
   within the pixel budget; every animation frame lies in the canvas and holds one
   image of its size; without animation there is one image, and it is the canvas.
   */
  lemma AcceptedIsBounded(data: Bytes)
    requires Measure(data).Some?
    ensures var cs, size := Decode(data[12..]).value, Measure(data).value;
            && ChunksOk(cs) && data[12..] == Encode(cs)
            && TotalPixels(cs) <= MAX_PIXELS && FramesOk(cs, size.width, size.height)
            && (CountFrames(cs) == 0 ==> CountStill(cs) == 1)
            && (CountFrames(cs) > 0 ==> CountStill(cs) == 0)
            && (forall i :: 0 <= i < |cs| && IsStill(cs[i]) ==> FrameSize(cs[i]) == Some(size))
  {
    var cs, size := Decode(data[12..]).value, Measure(data).value;
    EncodeDecode(data[12..]);
    VisitIs(cs);
    FormsIff(cs, size);
    NoFrames(cs);
  }
}
