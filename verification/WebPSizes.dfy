/**
 The sizes that WebP headers carry, written as sections 2.7 and 3.4 of RFC 9649 and section 9.1 of
 RFC 6386 lay them out: what the reader finds is exactly what such a header was written for.
 */
module WebPSizes {
  import opened Base
  import opened WebP

  // ----- fields -------------------------------------------------------------------------------------------

  /** A number of 14 bits under two bits of scaling. */
  function Field14(n: int, scale: int): (b: Bytes)
    requires 0 <= n < 0x4000 && 0 <= scale < 4
    ensures |b| == 2
  {
    [n % 256, n / 256 + 64 * scale]
  }

  lemma Field14RoundTrip(n: int, scale: int)
    requires 0 <= n < 0x4000 && 0 <= scale < 4
    ensures var b := Field14(n, scale); (b[0] as int + b[1] as int * 256) % 0x4000 == n
  {
    assert n == n / 256 * 256 + n % 256;
    assert n % 256 + (n / 256 + 64 * scale) * 256 == n + 0x4000 * scale;
  }

  lemma Field14Exact(low: Byte, high: Byte) returns (scale: int)
    ensures 0 <= scale < 4 && Field14((low as int + high as int * 256) % 0x4000, scale) == [low, high]
  {
    scale := high as int / 64;
    var n := low as int + high as int % 64 * 256;
    assert low as int + high as int * 256 == n + 0x4000 * scale;
    assert (low as int + high as int * 256) % 0x4000 == n;
    assert n % 256 == low && n / 256 == high as int % 64;
  }

  function Little24(n: int): (b: Bytes)
    requires 0 <= n < 0x100_0000
    ensures |b| == 3
  {
    [n % 256, n / 256 % 256, n / 0x1_0000]
  }

  lemma Read24Little(n: int)
    requires 0 <= n < 0x100_0000
    ensures Read24(Little24(n)) == n
  {
    assert n == n / 256 * 256 + n % 256;
    assert n / 256 == n / 0x1_0000 * 256 + n / 256 % 256;
  }

  lemma Little24Read(b: Bytes)
    requires |b| == 3
    ensures 0 <= Read24(b) < 0x100_0000 && Little24(Read24(b)) == b
  {
    var n, high := Read24(b), b[1] as int + b[2] as int * 256;
    assert n == high * 256 + b[0] as int;
    assert n / 256 == high && n % 256 == b[0];
    assert n / 0x1_0000 == b[2] && high % 256 == b[1];
  }

  // ----- one image ------------------------------------------------------------------------------------------

  /** The key frame header: three bytes of tag, the start code, and the two sides. */
  function LossyHeader(tag: Bytes, size: Size, across: int, down: int): (b: Bytes)
    requires |tag| == 3 && 0 <= size.width < 0x4000 && 0 <= size.height < 0x4000
    requires 0 <= across < 4 && 0 <= down < 4
    ensures |b| == 10
  {
    tag + [0x9d, 0x01, 0x2a] + Field14(size.width, across) + Field14(size.height, down)
  }

  /** The payload begins with the header of a key frame of this size. */
  ghost predicate IsLossy(payload: Bytes, size: Size) {
    && 0 <= size.width < 0x4000 && 0 <= size.height < 0x4000
    && exists tag: Bytes, across, down ::
         && |tag| == 3 && tag[0] % 2 == 0 && 0 <= across < 4 && 0 <= down < 4
         && LossyHeader(tag, size, across, down) <= payload
  }

  /** Reading the header of a key frame gives back the size it was written for, whatever the scaling and the rest. */
  lemma LossyRoundTrip(tag: Bytes, size: Size, across: int, down: int, rest: Bytes)
    requires |tag| == 3 && tag[0] % 2 == 0 && 0 <= size.width < 0x4000 && 0 <= size.height < 0x4000
    requires 0 <= across < 4 && 0 <= down < 4
    ensures FrameSize(Chunk(LOSSY, LossyHeader(tag, size, across, down) + rest)) == Some(size)
  {
    var p, w, h := LossyHeader(tag, size, across, down) + rest, Field14(size.width, across), Field14(size.height, down);
    Field14RoundTrip(size.width, across);
    Field14RoundTrip(size.height, down);
    LossyReads(p, w, h);
  }

  lemma LossyReads(p: Bytes, w: Bytes, h: Bytes)
    requires |w| == 2 && |h| == 2 && |p| >= 10 && p[0] % 2 == 0 && p[3..10] == [0x9d, 0x01, 0x2a] + w + h
    ensures FrameSize(Chunk(LOSSY, p)) ==
              Some(Size((w[0] as int + w[1] as int * 256) % 0x4000, (h[0] as int + h[1] as int * 256) % 0x4000))
  {
    var q := p[3..10];
    assert p[3] == q[0] && p[4] == q[1] && p[5] == q[2];
    assert p[6] == q[3] && p[7] == q[4] && p[8] == q[5] && p[9] == q[6];
  }

  lemma LossyExact(p: Bytes)
    requires FrameSize(Chunk(LOSSY, p)).Some?
    ensures IsLossy(p, FrameSize(Chunk(LOSSY, p)).value)
  {
    var size := FrameSize(Chunk(LOSSY, p)).value;
    var across := Field14Exact(p[6], p[7]);
    var down := Field14Exact(p[8], p[9]);
    var tag := p[..3];
    var header := LossyHeader(tag, size, across, down);
    assert p[..10] == tag + [p[3], p[4], p[5]] + [p[6], p[7]] + [p[8], p[9]];
    assert header == p[..10];
    assert tag[0] % 2 == 0 && header <= p;
  }

  /** The payload begins with the header of a lossless image of this size. */
  ghost predicate IsLossless(payload: Bytes, size: Size) {
    && 1 <= size.width <= 0x4000 && 1 <= size.height <= 0x4000
    && exists alpha :: LosslessHeader(size.width, size.height, alpha) <= payload
  }

  lemma LosslessExact(p: Bytes)
    requires FrameSize(Chunk(LOSSLESS, p)).Some?
    ensures IsLossless(p, FrameSize(Chunk(LOSSLESS, p)).value)
  {
    var size := FrameSize(Chunk(LOSSLESS, p)).value;
    var alpha := p[4] as int >= 16;
    var w, h := size.width - 1, size.height - 1;
    LosslessWidth(p[1] as int, p[2] as int, w);
    LosslessHeight(p[2] as int, p[3] as int, p[4] as int, h);
    assert p[..5] == [p[0], p[1], p[2], p[3], p[4]];
    assert LosslessHeader(size.width, size.height, alpha) == p[..5];
  }

  lemma LosslessWidth(low: int, middle: int, w: int)
    requires 0 <= low < 256 && 0 <= middle < 256 && w == low + middle % 64 * 256
    ensures 0 <= w < 0x4000 && w % 256 == low && w / 256 == middle % 64
  {
  }

  lemma LosslessHeight(middle: int, high: int, top: int, h: int)
    requires 0 <= middle < 256 && 0 <= high < 256 && 0 <= top < 32 && h == middle / 64 + high * 4 + top % 16 * 1024
    ensures 0 <= h < 0x4000 && h % 4 == middle / 64 && h / 4 % 256 == high && h / 1024 == top % 16
    ensures top == top % 16 + (if top >= 16 then 16 else 0)
  {
    assert h / 4 == high + top % 16 * 256;
  }

  lemma LossyIff(p: Bytes, size: Size)
    ensures FrameSize(Chunk(LOSSY, p)) == Some(size) <==> IsLossy(p, size)
  {
    if FrameSize(Chunk(LOSSY, p)).Some? { LossyExact(p); }
    if IsLossy(p, size) {
      var tag: Bytes, across, down :| |tag| == 3 && tag[0] % 2 == 0 && 0 <= across < 4 && 0 <= down < 4
          && LossyHeader(tag, size, across, down) <= p;
      var header := LossyHeader(tag, size, across, down);
      LossyRoundTrip(tag, size, across, down, p[|header|..]);
      assert p == header + p[|header|..];
    }
  }

  lemma LosslessIff(p: Bytes, size: Size)
    ensures FrameSize(Chunk(LOSSLESS, p)) == Some(size) <==> IsLossless(p, size)
  {
    if FrameSize(Chunk(LOSSLESS, p)).Some? { LosslessExact(p); }
    if IsLossless(p, size) {
      var alpha :| LosslessHeader(size.width, size.height, alpha) <= p;
      var header := LosslessHeader(size.width, size.height, alpha);
      LosslessRoundTrip(size.width, size.height, alpha, p[|header|..]);
      assert p == header + p[|header|..];
    }
  }

  /** A size is read off a chunk exactly if it is an image whose header was written for that size. */
  lemma FrameSizeIff(c: Chunk, size: Size)
    ensures FrameSize(c) == Some(size) <==>
              (c.tag == LOSSY && IsLossy(c.payload, size)) || (c.tag == LOSSLESS && IsLossless(c.payload, size))
  {
    if c.tag == LOSSY {
      LossyIff(c.payload, size);
    } else if c.tag == LOSSLESS {
      LosslessIff(c.payload, size);
    }
  }

  // ----- the canvas -----------------------------------------------------------------------------------------

  /** The extended header: flags, three reserved bytes, and one less than each side. */
  function ExtendedHeader(flags: Byte, size: Size): (b: Bytes)
    requires 1 <= size.width <= 0x100_0000 && 1 <= size.height <= 0x100_0000
    ensures |b| == 10
  {
    [flags, 0, 0, 0] + Little24(size.width - 1) + Little24(size.height - 1)
  }

  predicate CanvasFits(size: Size) {
    1 <= size.width <= 0x100_0000 && 1 <= size.height <= 0x100_0000
  }

  /** A header announces a canvas exactly if it was written for that size, with no reserved bit set. */
  lemma CanvasIff(c: Chunk, size: Size, animated: bool)
    ensures IsHeader(c) && Canvas(c) == size && Flag(c) == animated <==>
              && c.tag == VP8X && CanvasFits(size)
              && exists flags: Byte ::
                   flags % 2 == 0 && flags < 64 && (flags / 2 % 2 == 1) == animated
                       && c.payload == ExtendedHeader(flags, size)
  {
    var p := c.payload;
    if IsHeader(c) && Canvas(c) == size && Flag(c) == animated {
      Little24Read(p[4..7]);
      Little24Read(p[7..10]);
      assert p == [p[0], 0, 0, 0] + p[4..7] + p[7..10];
      assert p == ExtendedHeader(p[0], size);
    }
    if CanvasFits(size) {
      forall flags: Byte | p == ExtendedHeader(flags, size)
        ensures |p| == 10 && p[..4] == [flags, 0, 0, 0]
        ensures Size(Read24(p[4..7]) + 1, Read24(p[7..10]) + 1) == size
      {
        CanvasReads(flags, size);
      }
    }
  }

  lemma CanvasReads(flags: Byte, size: Size)
    requires CanvasFits(size)
    ensures var p := ExtendedHeader(flags, size);
            p[..4] == [flags, 0, 0, 0] && Size(Read24(p[4..7]) + 1, Read24(p[7..10]) + 1) == size
  {
    var p := ExtendedHeader(flags, size);
    assert p[4..7] == Little24(size.width - 1) && p[7..10] == Little24(size.height - 1);
    Read24Little(size.width - 1);
    Read24Little(size.height - 1);
  }

  // ----- the place of a frame ---------------------------------------------------------------------------------

  /** Half the corner's place, one less than each side, and four bytes of timing. */
  function FrameHeader(f: Frame, timing: Bytes): (b: Bytes)
    requires FramePlaces(f) && |timing| == 4
    ensures |b| == 16
  {
    Little24(f.x / 2) + Little24(f.y / 2) + Little24(f.width - 1) + Little24(f.height - 1) + timing
  }

  predicate FramePlaces(f: Frame) {
    && 0 <= f.x < 0x200_0000 && f.x % 2 == 0 && 0 <= f.y < 0x200_0000 && f.y % 2 == 0
    && 1 <= f.width <= 0x100_0000 && 1 <= f.height <= 0x100_0000
  }

  /** A frame is read exactly as its header was written. */
  lemma FrameIff(payload: Bytes, f: Frame)
    requires |payload| >= 16
    ensures FrameOf(payload) == f <==> FramePlaces(f) && FrameHeader(f, payload[12..16]) <= payload
  {
    if FrameOf(payload) == f {
      Little24Read(payload[0..3]);
      Little24Read(payload[3..6]);
      Little24Read(payload[6..9]);
      Little24Read(payload[9..12]);
      var header := FrameHeader(f, payload[12..16]);
      assert payload[..16] == payload[0..3] + payload[3..6] + payload[6..9] + payload[9..12] + payload[12..16];
      assert header == payload[..16];
    }
    if FramePlaces(f) && FrameHeader(f, payload[12..16]) <= payload {
      var header := FrameHeader(f, payload[12..16]);
      FrameReads(f, payload[12..16]);
      assert payload[..16] == header;
      assert payload[0..3] == header[0..3] && payload[3..6] == header[3..6];
      assert payload[6..9] == header[6..9] && payload[9..12] == header[9..12];
    }
  }

  lemma FrameReads(f: Frame, timing: Bytes)
    requires FramePlaces(f) && |timing| == 4
    ensures FrameOf(FrameHeader(f, timing)) == f
  {
    var p := FrameHeader(f, timing);
    assert p[0..3] == Little24(f.x / 2) && p[3..6] == Little24(f.y / 2);
    assert p[6..9] == Little24(f.width - 1) && p[9..12] == Little24(f.height - 1);
    Read24Little(f.x / 2);
    Read24Little(f.y / 2);
    Read24Little(f.width - 1);
    Read24Little(f.height - 1);
  }

  // ----- a whole file -----------------------------------------------------------------------------------------

  /** The container around the chunks: RIFF, the length, WEBP. */
  function Container(cs: seq<Chunk>): Bytes
    requires ChunksOk(cs) && |Encode(cs)| + 4 < 0x1_0000_0000
  {
    Little32(0x46464952) + Little32(|Encode(cs)| + 4) + Little32(0x50424557) + Encode(cs)
  }

  /** A file that holds one image, of either coding, is measured as what its header was written for. */
  lemma PictureRoundTrip(c: Chunk, size: Size)
    requires ChunkOk(c) && |c.payload| + 14 < 0x1_0000_0000
    requires (c.tag == LOSSY && IsLossy(c.payload, size)) || (c.tag == LOSSLESS && IsLossless(c.payload, size))
    requires size.width * size.height <= MAX_PIXELS
    ensures ChunksOk([c]) && |Encode([c])| + 4 < 0x1_0000_0000 && Measure(Container([c])) == Some(size)
  {
    var cs := [c];
    HeadEncode(c, []);
    assert cs[1..] == [] && Encode(cs) == EncodeChunk(c) + [] == EncodeChunk(c);
    var data := Container(cs);
    assert data[4..8] == Little32(|Encode(cs)| + 4);
    Read32Little(|Encode(cs)| + 4);
    assert data[12..] == Encode(cs);
    FrameSizeIff(c, size);
    assert ImageAt(cs, 0) && FrameSize(cs[0]) == Some(size);
    assert Picture(cs, size);
    AcceptedIff(data, size);
  }
}
