/** The bitmap encoder's bookkeeping (freerds/core/encoder.c): frame ids
    and the adaptive frame rate, the tile grid over the desktop, and the set
    of initialised codecs kept as a bit set.

    The codec contexts themselves (RemoteFX, NSCodec, planar, interleaved)
    are opaque: the model keeps whether each exists, and whether a
    constructor or `malloc()` succeeds is a parameter. */
module Encoder {
  import opened Base

  /** The codecs the encoder can hold, whose FreeRDP flags (REMOTEFX 0x08,
      NSCODEC 0x04, PLANAR 0x02, INTERLEAVED 0x01) make up the encoder's
      `codecs` bit set; the set of flags is modelled as a set of codecs. */
  datatype Codec = RemoteFx | NSCodec | Planar | Interleaved

  /** Tiles are at most 64 x 64 pixels of 4 bytes. */
  const MaxTileSide: nat := 64
  const BytesPerPixel: nat := 4

  // ---------------------------------------------------------------------
  // Frame rate adaptation
  // ---------------------------------------------------------------------

  /** The frame rate freerds_encoder_create_frame_id picks from the current
      one, the cap, the number of frames in flight and the acknowledgement
      allowance. All operands are non-negative, so C's truncating division
      is Dafny's. */
  function NextFps(fps: int, maxFps: nat, inFlight: nat, frameAck: int): int {
    var f :=
      if inFlight > frameAck then (100 / (inFlight + 1) * maxFps) / 100
      else if fps + 2 > maxFps then maxFps
      else fps + 2;
    if f < 1 then 1 else f
  }

  /** With a cap of at least 1, the new rate is between 1 and the cap. */
  lemma FpsWithinBounds(fps: int, maxFps: nat, inFlight: nat, frameAck: int)
    requires maxFps >= 1
    ensures 1 <= NextFps(fps, maxFps, inFlight, frameAck) <= maxFps
  {
    if inFlight > frameAck {
      ThrottleAtMost(maxFps, inFlight, 0);
    }
  }

  /** (100 / (n + 1) * maxFps) / 100 never exceeds (100 / (m + 1) * maxFps)
      / 100 for m <= n, and is at most maxFps / 2 for n >= 1. */
  lemma ThrottleAtMost(maxFps: nat, n: nat, m: nat)
    requires m <= n
    ensures (100 / (n + 1) * maxFps) / 100 <= (100 / (m + 1) * maxFps) / 100
    ensures (100 / (n + 1) * maxFps) / 100 <= maxFps
    ensures n >= 1 ==> (100 / (n + 1) * maxFps) / 100 <= maxFps / 2
  {
    var qn := 100 / (n + 1);
    var qm := 100 / (m + 1);
    DivAntitone(100, m + 1, n + 1);
    MulMonotone(qn, qm, maxFps);
    DivMonotone(qn * maxFps, qm * maxFps, 100);
    assert qm <= 100;
    MulMonotone(qn, 100, maxFps);
    DivMonotone(qn * maxFps, 100 * maxFps, 100);
    if n >= 1 {
      DivAntitone(100, 2, n + 1);
      MulMonotone(qn, 50, maxFps);
      DivMonotone(qn * maxFps, 50 * maxFps, 100);
      assert (50 * maxFps) / 100 == maxFps / 2;
    }
  }

  /** With frames in flight beyond the allowance, more frames in flight
      never give a higher rate, and at least one frame in flight at least
      halves the cap. */
  lemma ThrottleMonotone(fps: int, maxFps: nat, inFlight1: nat, inFlight2: nat, frameAck: int)
    requires frameAck < inFlight1 <= inFlight2
    ensures NextFps(fps, maxFps, inFlight2, frameAck) <= NextFps(fps, maxFps, inFlight1, frameAck)
    ensures inFlight1 >= 1 ==> NextFps(fps, maxFps, inFlight1, frameAck) <= if maxFps / 2 < 1 then 1 else maxFps / 2
  {
    ThrottleAtMost(maxFps, inFlight2, inFlight1);
    ThrottleAtMost(maxFps, inFlight1, inFlight1);
  }

  /** Without frames in flight beyond the allowance the rate climbs by 2 up
      to the cap. */
  lemma FpsRecovers(fps: int, maxFps: nat, inFlight: nat, frameAck: int)
    requires inFlight <= frameAck && 1 <= fps + 2 <= maxFps
    ensures NextFps(fps, maxFps, inFlight, frameAck) == fps + 2
  {
  }

  lemma DivAntitone(a: nat, d1: nat, d2: nat)
    requires 0 < d1 <= d2
    ensures a / d2 <= a / d1
  {
    var q1, q2 := a / d1, a / d2;
    MulMonotone(d1, d2, q2);
    if q2 > q1 {
      MulMonotone(q1 + 1, q2, d1);
    }
  }

  lemma MulMonotone(x: nat, y: nat, z: nat)
    requires x <= y
    ensures x * z <= y * z
  {
  }

  lemma DivMonotone(x: nat, y: nat, d: nat)
    requires x <= y && d > 0
    ensures x / d <= y / d
  {
    var qx, qy := x / d, y / d;
    if qx > qy {
      MulMonotone(qy + 1, qx, d);
    }
  }

  // ---------------------------------------------------------------------
  // Tile grid
  // ---------------------------------------------------------------------

  /** Number of tiles of side `tile` needed to cover `extent` pixels. */
  function CeilDiv(extent: nat, tile: nat): nat
    requires tile > 0
  {
    (extent + (tile - 1)) / tile
  }

  /** The grid covers the extent, and one tile fewer would not. */
  lemma CeilDivCovers(extent: nat, tile: nat)
    requires tile > 0
    ensures CeilDiv(extent, tile) * tile >= extent
    ensures CeilDiv(extent, tile) > 0 ==> (CeilDiv(extent, tile) - 1) * tile < extent
  {
    var q := (extent + (tile - 1)) / tile;
    var r := (extent + (tile - 1)) % tile;
    assert extent + (tile - 1) == q * tile + r;
    if q > 0 {
      assert (q - 1) * tile == q * tile - tile;
    }
  }

  /** Tile k of a grid of `count` tiles occupies [k * size, (k + 1) * size)
      of a buffer of size * count bytes: inside it, and after tile k - 1. */
  lemma TileInBuffer(k: nat, count: nat, size: nat)
    requires k < count
    ensures (k + 1) * size <= count * size
    ensures k * size + size == (k + 1) * size
  {
    MulMonotone(k + 1, count, size);
  }

  /** Row i, column j of a grid of width w and height h is tile i * w + j,
      inside the grid. */
  lemma GridIndexInRange(i: nat, j: nat, w: nat, h: nat)
    requires i < h && j < w
    ensures i * w + j < w * h
    ensures i * w + j + 1 <= (i + 1) * w
  {
    MulMonotone(i + 1, h, w);
  }

  /** The nested loop of freerds_encoder_init_grid: row by row, cell
      (i, j) of a w x h grid gets the offset of tile i * w + j. */
  method FillGrid(g: array<int>, w: nat, h: nat, tileSize: nat)
    requires g.Length == w * h
    modifies g
    ensures forall k | 0 <= k < g.Length :: g[k] == k * tileSize
  {
    var i := 0;
    var rowStart := 0;
    while i < h
      invariant 0 <= i <= h
      invariant rowStart == i * w <= g.Length
      invariant forall k | 0 <= k < rowStart :: g[k] == k * tileSize
      decreases h - i
    {
      var j := 0;
      while j < w
        invariant 0 <= j <= w
        invariant rowStart + j <= g.Length
        invariant forall k | 0 <= k < rowStart + j :: g[k] == k * tileSize
        decreases w - j
      {
        GridIndexInRange(i, j, w, h);
        g[rowStart + j] := (rowStart + j) * tileSize;
        j := j + 1;
      }
      assert rowStart + w == (i + 1) * w;
      rowStart := rowStart + w;
      i := i + 1;
    }
  }

  /** Allocation outcomes of the four codec constructors. */
  datatype CodecAllocs = CodecAllocs(rfxOk: bool, nscOk: bool, planarOk: bool, interleavedOk: bool)

  /** Whether the constructor of codec `c` succeeds. */
  predicate AllocOk(allocs: CodecAllocs, c: Codec) {
    match c
    case RemoteFx => allocs.rfxOk
    case NSCodec => allocs.nscOk
    case Planar => allocs.planarOk
    case Interleaved => allocs.interleavedOk
  }

  /** The order in which freerds_encoder_prepare initialises codecs: the
      frame codecs, then the bitmap codecs. */
  const FrameCodecs: seq<Codec> := [RemoteFx, NSCodec]
  const BitmapCodecs: seq<Codec> := [Planar, Interleaved]
  const PrepareOrder: seq<Codec> := FrameCodecs + BitmapCodecs

  /** Walking `order`, every codec that is requested and not `present` is
      initialised; the first whose constructor fails stops the walk. The
      result is the set of codecs added and whether the walk completed. */
  function Prepared(order: seq<Codec>, requested: set<Codec>, present: set<Codec>, allocs: CodecAllocs)
    : (r: (set<Codec>, bool))
    ensures r.0 <= requested - present
    decreases |order|
  {
    if order == [] then ({}, true)
    else
      var c := order[0];
      var rest := Prepared(order[1..], requested, present, allocs);
      if c in requested && c !in present then
        if AllocOk(allocs, c) then ({c} + rest.0, rest.1) else ({}, false)
      else rest
  }

  /** The walk over a concatenation is the walk over the first part,
      continued over the second only when the first completed. */
  lemma {:induction false} PreparedAppend(a: seq<Codec>, b: seq<Codec>, requested: set<Codec>, present: set<Codec>,
                                          allocs: CodecAllocs)
    ensures Prepared(a + b, requested, present, allocs) ==
      var ra := Prepared(a, requested, present, allocs);
      var rb := Prepared(b, requested, present, allocs);
      if ra.1 then (ra.0 + rb.0, rb.1) else ra
    decreases |a|
  {
    if a == [] {
      assert a + b == b;
      var rb := Prepared(b, requested, present, allocs);
      assert {} + rb.0 == rb.0;
    } else {
      assert (a + b)[0] == a[0] && (a + b)[1..] == a[1..] + b;
      PreparedAppend(a[1..], b, requested, present, allocs);
      var c := a[0];
      var ra := Prepared(a[1..], requested, present, allocs);
      var rb := Prepared(b, requested, present, allocs);
      var rab := Prepared(a[1..] + b, requested, present, allocs);
      assert rab == if ra.1 then (ra.0 + rb.0, rb.1) else ra;
      if c in requested && c !in present && AllocOk(allocs, c) {
        assert Prepared(a + b, requested, present, allocs) == ({c} + rab.0, rab.1);
        assert Prepared(a, requested, present, allocs) == ({c} + ra.0, ra.1);
        if ra.1 {
          assert {c} + (ra.0 + rb.0) == ({c} + ra.0) + rb.0;
        }
      }
    }
  }

  /** The walk completes if and only if every codec on the way that is
      requested and not present can be constructed. */
  lemma {:induction false} PreparedCompletes(order: seq<Codec>, requested: set<Codec>, present: set<Codec>,
                                             allocs: CodecAllocs)
    ensures Prepared(order, requested, present, allocs).1 <==>
      forall i | 0 <= i < |order| :: order[i] in requested - present ==> AllocOk(allocs, order[i])
    ensures Prepared(order, requested, present, allocs).1 ==>
      Prepared(order, requested, present, allocs).0 == set c | c in order && c in requested - present
    decreases |order|
  {
    if order != [] {
      PreparedCompletes(order[1..], requested, present, allocs);
      assert forall i | 1 <= i < |order| :: order[i] == order[1..][i - 1];
    }
  }

  /** Codecs outside the walk's order do not affect it. */
  lemma {:induction false} PreparedIgnoresOthers(order: seq<Codec>, requested: set<Codec>, present: set<Codec>,
                                                 extra: set<Codec>, allocs: CodecAllocs)
    requires forall c | c in extra :: c !in order
    ensures Prepared(order, requested, present + extra, allocs) == Prepared(order, requested, present, allocs)
    decreases |order|
  {
    if order != [] {
      assert order[0] in order;
      PreparedIgnoresOthers(order[1..], requested, present, extra, allocs);
    }
  }

  /** Over the whole order of prepare: it succeeds if and only if every
      requested codec not yet present can be constructed, and then exactly
      those codecs are added. */
  lemma PrepareSucceedsIff(requested: set<Codec>, present: set<Codec>, allocs: CodecAllocs)
    ensures Prepared(PrepareOrder, requested, present, allocs).1 <==>
      forall c | c in requested - present :: AllocOk(allocs, c)
    ensures Prepared(PrepareOrder, requested, present, allocs).1 ==>
      Prepared(PrepareOrder, requested, present, allocs).0 == requested - present
  {
    assert PrepareOrder == [RemoteFx, NSCodec, Planar, Interleaved];
    PreparedCompletes(PrepareOrder, requested, present, allocs);
    if Prepared(PrepareOrder, requested, present, allocs).1 {
      forall c | c in requested - present ensures AllocOk(allocs, c) {
        match c
        case RemoteFx => assert PrepareOrder[0] == c;
        case NSCodec => assert PrepareOrder[1] == c;
        case Planar => assert PrepareOrder[2] == c;
        case Interleaved => assert PrepareOrder[3] == c;
      }
      forall c | c in requested - present ensures c in PrepareOrder {
        match c
        case RemoteFx => assert PrepareOrder[0] == c;
        case NSCodec => assert PrepareOrder[1] == c;
        case Planar => assert PrepareOrder[2] == c;
        case Interleaved => assert PrepareOrder[3] == c;
      }
    }
  }

  /** The prepare walk over RemoteFX/NSCodec followed by planar/interleaved:
      the second half starts from the codecs the first half added, and the
      whole walk succeeds exactly when both halves do. */
  lemma PrepareComposes(requested: set<Codec>, present: set<Codec>, allocs: CodecAllocs)
    ensures var rf := Prepared(FrameCodecs, requested, present, allocs);
            var rb := Prepared(BitmapCodecs, requested, present + rf.0, allocs);
            var r := Prepared(PrepareOrder, requested, present, allocs);
            && (r.1 <==> rf.1 && rb.1)
            && r.0 == (if rf.1 then rf.0 + rb.0 else rf.0)
  {
    var rf := Prepared(FrameCodecs, requested, present, allocs);
    PreparedAppend(FrameCodecs, BitmapCodecs, requested, present, allocs);
    PreparedIgnoresOthers(BitmapCodecs, requested, present, rf.0, allocs);
  }

  /** `rdsEncoder`. The grid is an array of byte offsets into the grid
      buffer, whose size is kept when it is allocated. */
  class Encoder {
    var width: nat
    var height: nat
    var maxTileWidth: nat
    var maxTileHeight: nat
    var gridWidth: nat
    var gridHeight: nat
    var gridBuffer: Option<nat>
    var grid: array?<int>
    var hasBitStream: bool
    var rfx: bool
    var nsc: bool
    var planar: bool
    var interleaved: bool
    var codecs: set<Codec>
    var frameList: Option<seq<u32>>
    var fps: int
    var maxFps: nat
    var frameId: u32
    var frameAck: int

    /** Each codec bit is set exactly when that codec's context exists, and
        a RemoteFX or NSCodec context comes with a frame list. */
    predicate Valid()
      reads this
    {
      && (RemoteFx in codecs <==> rfx)
      && (NSCodec in codecs <==> nsc)
      && (Planar in codecs <==> planar)
      && (Interleaved in codecs <==> interleaved)
      && (rfx || nsc ==> frameList.Some?)
    }

    predicate GridReleased()
      reads this
    {
      gridBuffer.None? && grid == null && gridWidth == 0 && gridHeight == 0
    }

    /** The grid as freerds_encoder_init leaves it when both of its
        allocations succeed: 64 x 64 tiles, one byte offset per tile. */
    predicate TiledGrid()
      reads this`width, this`height, this`maxTileWidth, this`maxTileHeight,
            this`gridWidth, this`gridHeight, this`grid, grid
    {
      && maxTileWidth == MaxTileSide && maxTileHeight == MaxTileSide
      && gridWidth == CeilDiv(width, MaxTileSide) && gridHeight == CeilDiv(height, MaxTileSide)
      && grid != null && grid.Length == gridWidth * gridHeight
      && forall k | 0 <= k < grid.Length :: grid[k] == k * (MaxTileSide * MaxTileSide * BytesPerPixel)
    }

    /** The frame bookkeeping fields, together: frame list, rate, cap,
        frame id and acknowledgement window. */
    function Bookkeeping(): (Option<seq<u32>>, int, nat, u32, int)
      reads this
    {
      (frameList, fps, maxFps, frameId, frameAck)
    }

    /** The frame bookkeeping init_rfx and init_nsc set up when no frame
        list exists: rate 16, cap 32, frame id 0, an empty frame list, and
        the acknowledgement window of SurfaceFrameMarkerEnabled. */
    predicate FreshBookkeeping(surfaceFrameMarkerEnabled: bool)
      reads this
    {
      && fps == 16 && maxFps == 32 && frameId == 0 && frameList == Some([])
      && frameAck == (if surfaceFrameMarkerEnabled then 1 else 0)
    }

    /** freerds_encoder_new before its call of freerds_encoder_init: a zeroed
        encoder for the desktop size with rate 16 and cap 32. */
    constructor (width: nat, height: nat)
      ensures Valid() && GridReleased()
      ensures this.width == width && this.height == height
      ensures fps == 16 && maxFps == 32 && codecs == {} && frameList.None?
      ensures !hasBitStream && !rfx && !nsc && !planar && !interleaved
    {
      this.width := width;
      this.height := height;
      maxTileWidth := 0;
      maxTileHeight := 0;
      gridWidth := 0;
      gridHeight := 0;
      gridBuffer := None;
      grid := null;
      hasBitStream := false;
      rfx := false;
      nsc := false;
      planar := false;
      interleaved := false;
      codecs := {};
      frameList := None;
      fps := 16;
      maxFps := 32;
      frameId := 0;
      frameAck := 0;
    }

    /** freerds_encoder_create_frame_id: the rate is adapted to the frames
        in flight; then, if the frame can be allocated, the frame id counter
        is incremented (modulo 2^32) and the new id joins the frame list and
        is returned; otherwise -1. */
    method CreateFrameId(allocOk: bool) returns (r: int)
      requires frameList.Some?
      modifies this`fps, this`frameId, this`frameList
      ensures fps == NextFps(old(fps), maxFps, |old(frameList).value|, frameAck)
      ensures !allocOk ==> r == -1 && frameId == old(frameId) && frameList == old(frameList)
      ensures allocOk ==>
        && frameId == Inc32(old(frameId))
        && frameList == Some(old(frameList).value + [frameId])
        && r == ToInt32(frameId)
    {
      var inFlightFrames := |frameList.value|;
      if inFlightFrames > frameAck {
        fps := (100 / (inFlightFrames + 1) * maxFps) / 100;
      } else {
        fps := fps + 2;
        if fps > maxFps {
          fps := maxFps;
        }
      }
      if fps < 1 {
        fps := 1;
      }
      if !allocOk {
        return -1;
      }
      frameId := Inc32(frameId);
      frameList := Some(frameList.value + [frameId]);
      r := ToInt32(frameId);
    }

    /** freerds_encoder_init_grid: grid dimensions by ceiling division, a
        buffer of one tile per grid cell, and grid[k] = k * tileSize for
        every cell k = i * gridWidth + j. Either allocation may fail (-1);
        a failed grid allocation leaves the buffer allocated. */
    method InitGrid(bufferOk: bool, gridOk: bool) returns (status: int)
      requires maxTileWidth > 0 && maxTileHeight > 0
      modifies this`gridWidth, this`gridHeight, this`gridBuffer, this`grid
      ensures gridWidth == CeilDiv(width, maxTileWidth) && gridHeight == CeilDiv(height, maxTileHeight)
      ensures !bufferOk ==> status == -1 && gridBuffer.None? && grid == old(grid)
      ensures bufferOk ==>
        gridBuffer == Some(maxTileWidth * maxTileHeight * BytesPerPixel * (gridWidth * gridHeight))
      ensures bufferOk && !gridOk ==> status == -1 && grid == null
      ensures bufferOk && gridOk ==>
        && status == 0 && grid != null && fresh(grid)
        && grid.Length == gridWidth * gridHeight
        && forall k | 0 <= k < grid.Length :: grid[k] == k * (maxTileWidth * maxTileHeight * BytesPerPixel)
    {
      gridWidth := CeilDiv(width, maxTileWidth);
      gridHeight := CeilDiv(height, maxTileHeight);
      var tileSize := maxTileWidth * maxTileHeight * BytesPerPixel;
      var tileCount := gridWidth * gridHeight;
      if !bufferOk {
        gridBuffer := None;
        return -1;
      }
      gridBuffer := Some(tileSize * tileCount);
      if !gridOk {
        grid := null;
        return -1;
      }
      var g := new int[tileCount];
      FillGrid(g, gridWidth, gridHeight, tileSize);
      grid := g;
      status := 0;
    }

    /** freerds_encoder_uninit_grid: buffer and grid released, dimensions
        0. On an already released grid it changes nothing, so a second call
        has no further effect. */
    method UninitGrid() returns (status: int)
      modifies this`gridWidth, this`gridHeight, this`gridBuffer, this`grid
      ensures status == 0 && GridReleased()
      ensures old(GridReleased()) ==> unchanged(this)
    {
      if gridBuffer.Some? {
        gridBuffer := None;
      }
      if grid != null {
        grid := null;
      }
      gridWidth := 0;
      gridHeight := 0;
      status := 0;
    }

    /** The frame bookkeeping of init_rfx and init_nsc: set up only when no
        frame list exists. */
    method InitFrameBookkeeping(surfaceFrameMarkerEnabled: bool)
      modifies this`fps, this`maxFps, this`frameId, this`frameList, this`frameAck
      ensures frameList.Some?
      ensures old(frameList).Some? ==> unchanged(this)
      ensures old(frameList).None? ==> FreshBookkeeping(surfaceFrameMarkerEnabled)
    {
      if frameList.None? {
        fps := 16;
        maxFps := 32;
        frameId := 0;
        frameList := Some([]);
        frameAck := if surfaceFrameMarkerEnabled then 1 else 0;
      }
    }

    /** freerds_encoder_init_rfx: reuse or create the context; on success set
        up frame bookkeeping if needed and add the RemoteFX bit. */
    method InitRfx(allocOk: bool, surfaceFrameMarkerEnabled: bool) returns (status: int)
      requires Valid()
      modifies this`rfx, this`codecs, this`fps, this`maxFps, this`frameId, this`frameList, this`frameAck
      ensures Valid()
      ensures status == 1 <==> old(rfx) || allocOk
      ensures status != 1 ==> status == -1 && unchanged(this)
      ensures status == 1 ==> rfx && codecs == old(codecs) + {RemoteFx} && frameList.Some?
      ensures status == 1 && old(frameList).None? ==> FreshBookkeeping(surfaceFrameMarkerEnabled)
      ensures status == 1 && old(frameList).Some? ==> Bookkeeping() == old(Bookkeeping())
    {
      if !rfx {
        rfx := allocOk;
      }
      if !rfx {
        return -1;
      }
      InitFrameBookkeeping(surfaceFrameMarkerEnabled);
      codecs := codecs + {RemoteFx};
      status := 1;
    }

    /** freerds_encoder_init_nsc: as init_rfx, for the NSCodec bit. */
    method InitNsc(allocOk: bool, surfaceFrameMarkerEnabled: bool) returns (status: int)
      requires Valid()
      modifies this`nsc, this`codecs, this`fps, this`maxFps, this`frameId, this`frameList, this`frameAck
      ensures Valid()
      ensures status == 1 <==> old(nsc) || allocOk
      ensures status != 1 ==> status == -1 && unchanged(this)
      ensures status == 1 ==> nsc && codecs == old(codecs) + {NSCodec} && frameList.Some?
      ensures status == 1 && old(frameList).None? ==> FreshBookkeeping(surfaceFrameMarkerEnabled)
      ensures status == 1 && old(frameList).Some? ==> Bookkeeping() == old(Bookkeeping())
    {
      if !nsc {
        nsc := allocOk;
      }
      if !nsc {
        return -1;
      }
      InitFrameBookkeeping(surfaceFrameMarkerEnabled);
      codecs := codecs + {NSCodec};
      status := 1;
    }

    /** freerds_encoder_init_planar. */
    method InitPlanar(allocOk: bool) returns (status: int)
      requires Valid()
      modifies this`planar, this`codecs
      ensures Valid()
      ensures status == 1 <==> old(planar) || allocOk
      ensures status != 1 ==> status == -1 && unchanged(this)
      ensures status == 1 ==> planar && codecs == old(codecs) + {Planar}
    {
      if !planar {
        planar := allocOk;
      }
      if !planar {
        return -1;
      }
      codecs := codecs + {Planar};
      status := 1;
    }

    /** freerds_encoder_init_interleaved. */
    method InitInterleaved(allocOk: bool) returns (status: int)
      requires Valid()
      modifies this`interleaved, this`codecs
      ensures Valid()
      ensures status == 1 <==> old(interleaved) || allocOk
      ensures status != 1 ==> status == -1 && unchanged(this)
      ensures status == 1 ==> interleaved && codecs == old(codecs) + {Interleaved}
    {
      if !interleaved {
        interleaved := allocOk;
      }
      if !interleaved {
        return -1;
      }
      codecs := codecs + {Interleaved};
      status := 1;
    }

    /** freerds_encoder_init: 64 x 64 tiles, the grid (whose own failure is
        ignored), and the bit stream, whose allocation failure gives -1. */
    method Init(bufferOk: bool, gridOk: bool, bsOk: bool) returns (status: int)
      modifies this`maxTileWidth, this`maxTileHeight, this`gridWidth, this`gridHeight,
               this`gridBuffer, this`grid, this`hasBitStream
      ensures maxTileWidth == MaxTileSide && maxTileHeight == MaxTileSide
      ensures gridWidth == CeilDiv(width, MaxTileSide) && gridHeight == CeilDiv(height, MaxTileSide)
      ensures !bufferOk ==> gridBuffer.None? && grid == old(grid)
      ensures bufferOk ==>
        gridBuffer == Some(MaxTileSide * MaxTileSide * BytesPerPixel * (gridWidth * gridHeight))
      ensures bufferOk && !gridOk ==> grid == null
      ensures bufferOk && gridOk ==>
        && grid != null && fresh(grid)
        && grid.Length == gridWidth * gridHeight
        && forall k | 0 <= k < grid.Length :: grid[k] == k * (MaxTileSide * MaxTileSide * BytesPerPixel)
      ensures hasBitStream == (old(hasBitStream) || bsOk)
      ensures status == (if hasBitStream then 1 else -1)
    {
      maxTileWidth := MaxTileSide;
      maxTileHeight := MaxTileSide;
      var _ := InitGrid(bufferOk, gridOk);
      if !hasBitStream {
        hasBitStream := bsOk;
      }
      status := if hasBitStream then 1 else -1;
    }

    /** freerds_encoder_uninit: grid and bit stream released, and each codec
        whose bit is set uninitialised; uninitialising RemoteFX resets the
        frame id, and RemoteFX or NSCodec drop the frame list. Afterwards no
        codec bit is set. */
    method Uninit() returns (status: int)
      requires Valid()
      modifies this
      ensures Valid() && status == 1 && GridReleased() && !hasBitStream
      ensures codecs == {}
      ensures !rfx && !nsc && !planar && !interleaved
      ensures frameList == (if old(rfx) || old(nsc) then None else old(frameList))
      ensures frameId == (if old(rfx) then 0 else old(frameId))
      ensures width == old(width) && height == old(height)
      ensures maxTileWidth == old(maxTileWidth) && maxTileHeight == old(maxTileHeight)
      ensures fps == old(fps) && maxFps == old(maxFps) && frameAck == old(frameAck)
    {
      var _ := UninitGrid();
      hasBitStream := false;
      if RemoteFx in codecs {
        frameId := 0;
        rfx := false;
        frameList := None;
        codecs := codecs - {RemoteFx};
      }
      if NSCodec in codecs {
        nsc := false;
        frameList := None;
        codecs := codecs - {NSCodec};
      }
      if Planar in codecs {
        planar := false;
        codecs := codecs - {Planar};
      }
      if Interleaved in codecs {
        interleaved := false;
        codecs := codecs - {Interleaved};
      }
      forall c: Codec ensures c !in codecs {
        match c
        case RemoteFx =>
        case NSCodec =>
        case Planar =>
        case Interleaved =>
      }
      status := 1;
    }

    /** The first half of freerds_encoder_prepare: RemoteFX, then NSCodec,
        each initialised when requested and not yet set; the frame
        bookkeeping is set up by the first of them when no frame list
        exists, and is otherwise left as it was. */
    method PrepareFrameCodecs(requested: set<Codec>, allocs: CodecAllocs, surfaceFrameMarkerEnabled: bool)
      returns (status: int)
      requires Valid()
      modifies this`rfx, this`nsc, this`codecs, this`fps, this`maxFps, this`frameId, this`frameList, this`frameAck
      ensures Valid()
      ensures status == 1 || status == -1
      ensures status == 1 ==>
        && (RemoteFx in requested ==> RemoteFx in codecs)
        && (NSCodec in requested ==> NSCodec in codecs)
      ensures old(codecs) <= codecs <= old(codecs) + (requested * {RemoteFx, NSCodec})
      ensures status == 1 <==> Prepared(FrameCodecs, requested, old(codecs), allocs).1
      ensures codecs == old(codecs) + Prepared(FrameCodecs, requested, old(codecs), allocs).0
      ensures old(frameList).Some? || (RemoteFx !in requested && NSCodec !in requested) ==>
        Bookkeeping() == old(Bookkeeping())
      ensures status == 1 && old(frameList).None? && (RemoteFx in requested || NSCodec in requested) ==>
        FreshBookkeeping(surfaceFrameMarkerEnabled)
    {
      assert FrameCodecs[0] == RemoteFx && FrameCodecs[1..] == [NSCodec] && [NSCodec][1..] == [];
      status := 1;
      if RemoteFx in requested && RemoteFx !in codecs {
        status := InitRfx(allocs.rfxOk, surfaceFrameMarkerEnabled);
        if status < 0 {
          return -1;
        }
      }
      if NSCodec in requested && NSCodec !in codecs {
        status := InitNsc(allocs.nscOk, surfaceFrameMarkerEnabled);
        if status < 0 {
          return -1;
        }
      }
    }

    /** The second half of freerds_encoder_prepare: planar, then
        interleaved, each initialised when requested and not yet set. */
    method PrepareBitmapCodecs(requested: set<Codec>, allocs: CodecAllocs) returns (status: int)
      requires Valid()
      modifies this`planar, this`interleaved, this`codecs
      ensures Valid()
      ensures status == 1 || status == -1
      ensures status == 1 <==> Prepared(BitmapCodecs, requested, old(codecs), allocs).1
      ensures codecs == old(codecs) + Prepared(BitmapCodecs, requested, old(codecs), allocs).0
    {
      assert BitmapCodecs[0] == Planar && BitmapCodecs[1..] == [Interleaved] && [Interleaved][1..] == [];
      status := 1;
      if Planar in requested && Planar !in codecs {
        status := InitPlanar(allocs.planarOk);
        if status < 0 {
          return -1;
        }
      }
      if Interleaved in requested && Interleaved !in codecs {
        status := InitInterleaved(allocs.interleavedOk);
        if status < 0 {
          return -1;
        }
      }
    }

    /** freerds_encoder_prepare: every requested codec whose bit is not yet
        set is initialised, in the order RemoteFX, NSCodec, planar,
        interleaved; the first failure gives -1 and keeps the codecs
        initialised so far. It succeeds exactly when every requested codec
        not yet set can be constructed, and then the requested bits are
        exactly the ones added. */
    method Prepare(requested: set<Codec>, allocs: CodecAllocs, surfaceFrameMarkerEnabled: bool) returns (status: int)
      requires Valid()
      modifies this`rfx, this`nsc, this`planar, this`interleaved, this`codecs,
               this`fps, this`maxFps, this`frameId, this`frameList, this`frameAck
      ensures Valid()
      ensures status == 1 || status == -1
      ensures status == 1 <==> forall c | c in requested - old(codecs) :: AllocOk(allocs, c)
      ensures codecs == old(codecs) + Prepared(PrepareOrder, requested, old(codecs), allocs).0
      ensures status == 1 ==> codecs == old(codecs) + requested
      ensures old(codecs) <= codecs <= old(codecs) + requested
      ensures old(frameList).Some? || (RemoteFx !in requested && NSCodec !in requested) ==>
        Bookkeeping() == old(Bookkeeping())
      ensures status == 1 && old(frameList).None? && (RemoteFx in requested || NSCodec in requested) ==>
        FreshBookkeeping(surfaceFrameMarkerEnabled)
    {
      ghost var present := codecs;
      PrepareComposes(requested, present, allocs);
      PrepareSucceedsIff(requested, present, allocs);
      status := PrepareFrameCodecs(requested, allocs, surfaceFrameMarkerEnabled);
      if status == 1 {
        ghost var afterFrame := codecs;
        ghost var bookkeeping := Bookkeeping();
        status := PrepareBitmapCodecs(requested, allocs);
        assert Bookkeeping() == bookkeeping;
        assert codecs == afterFrame + Prepared(BitmapCodecs, requested, afterFrame, allocs).0;
      }
    }

    /** The first two steps of freerds_encoder_reset: uninit, then init.
        Every codec bit is cleared, the bit stream is there exactly when its
        allocation succeeds, and the frame list survives only when neither
        RemoteFX nor NSCodec was set. */
    method Reinit(bufferOk: bool, gridOk: bool, bsOk: bool) returns (status: int)
      requires Valid()
      modifies this
      ensures Valid() && codecs == {}
      ensures hasBitStream == bsOk
      ensures status == (if bsOk then 1 else -1)
      ensures width == old(width) && height == old(height)
      ensures maxTileWidth == MaxTileSide && maxTileHeight == MaxTileSide
      ensures gridWidth == CeilDiv(width, MaxTileSide) && gridHeight == CeilDiv(height, MaxTileSide)
      ensures bufferOk && gridOk ==> TiledGrid() && fresh(grid)
      ensures RemoteFx in old(codecs) || NSCodec in old(codecs) ==> frameList.None?
      ensures RemoteFx !in old(codecs) && NSCodec !in old(codecs) ==> Bookkeeping() == old(Bookkeeping())
    {
      status := Uninit();
      status := Init(bufferOk, gridOk, bsOk);
    }

    /** freerds_encoder_reset: uninit, init, and prepare the codec set held
        before; when it returns 1 the encoder has the same codec bits as
        before. The grid is rebuilt for 64 x 64 tiles, and the frame
        bookkeeping starts afresh when RemoteFX or NSCodec was set. */
    method Reset(bufferOk: bool, gridOk: bool, bsOk: bool, allocs: CodecAllocs, surfaceFrameMarkerEnabled: bool)
      returns (status: int)
      requires Valid()
      modifies this
      ensures Valid()
      ensures status == 1 || status == -1
      ensures status == 1 ==> codecs == old(codecs) && hasBitStream
      ensures status == 1 <==> bsOk && forall c | c in old(codecs) :: AllocOk(allocs, c)
      ensures codecs == (if bsOk then Prepared(PrepareOrder, old(codecs), {}, allocs).0 else {})
      ensures width == old(width) && height == old(height)
      ensures hasBitStream == bsOk
      ensures status == 1 ==> bsOk
      ensures maxTileWidth == MaxTileSide && maxTileHeight == MaxTileSide
      ensures gridWidth == CeilDiv(width, MaxTileSide) && gridHeight == CeilDiv(height, MaxTileSide)
      ensures bufferOk && gridOk ==> TiledGrid() && fresh(grid)
      ensures status == 1 && (RemoteFx in old(codecs) || NSCodec in old(codecs)) ==>
        FreshBookkeeping(surfaceFrameMarkerEnabled)
      ensures RemoteFx !in old(codecs) && NSCodec !in old(codecs) ==> Bookkeeping() == old(Bookkeeping())
    {
      var codecsBefore := codecs;
      status := Reinit(bufferOk, gridOk, bsOk);
      assert codecsBefore - codecs == codecsBefore;
      if status == 1 {
        status := Prepare(codecsBefore, allocs, surfaceFrameMarkerEnabled);
      }
    }
  }
}
