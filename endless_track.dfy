/** endless_track_advanced.py: the ordered list of chunks that follows the car upward.

    The list is never sorted or deduplicated. It begins with twenty chunks laid out
    downward (increasing y_offset); every later chunk is appended above the LAST one
    in the list, so the first generate-ahead pass starts above the bottom-most initial
    chunk and creates chunks that overlap initial ones. Lookups take the first chunk in
    list order whose rows contain the queried tile row.

    Every chunk consumes the next draws of the random stream: the class holds the
    stream (source, a function from the running chunk number to the draws of that
    chunk) and the number of chunks drawn so far. */
module EndlessTrack {
  import opened Common
  import opened TrackConfig
  import opened TrackGenerator
  import Config

  /** GameConfig.SCREEN_HEIGHT - 100, the car's start y and the zero of the distance. */
  const InitialCarY: int := Config.ScreenHeight - 100
  /** SCREEN_HEIGHT - 100 - SCREEN_HEIGHT // 2 */
  const InitialCameraY: real := (Config.ScreenHeight - 100 - Config.ScreenHeight / 2) as real
  const InitialChunkCount: nat := 20
  const InitialDifficulty: real := 0.1
  /** car_tile_y = (SCREEN_HEIGHT - 100) // TILE_SIZE; both operands are positive. */
  const CarTileY: int := (Config.ScreenHeight - 100) / TileSize
  /** The buffer above the camera that generate-ahead fills. */
  const AheadBuffer: real := 400.0
  /** camera_y + SCREEN_HEIGHT + 400 is the cleanup bound. */
  const BehindBuffer: real := (Config.ScreenHeight + 400) as real

  /** y_offset of the i-th initial chunk. */
  function InitialOffset(i: int): int
  {
    CarTileY - (InitialChunkCount as int / 2 - i) * ChunkHeight
  }

  ghost predicate AllWellFormed(cs: seq<Chunk>)
  {
    forall k :: 0 <= k < |cs| ==> WellFormed(cs[k])
  }

  /** The first n initial chunks, chunk i drawing from source(first + i): each uses
      difficulty 0.1 and starts from the previous chunk's LAST centre. */
  function InitialChunks(source: nat -> ChunkDraws, first: nat, sin: real -> real, n: nat): (r: seq<Chunk>)
    ensures |r| == n
    ensures forall k :: 0 <= k < n ==> r[k].yOffset == InitialOffset(k) && r[k].difficulty == InitialDifficulty
  {
    if n == 0 then []
    else
      var before := InitialChunks(source, first, sin, n - 1);
      var prev := if n == 1 then None else Some(LastCenter(before[n - 2]));
      before + [MakeChunk(InitialOffset(n - 1), InitialDifficulty, prev, source(first + n - 1), sin)]
  }

  lemma AllWellFormedAppend(a: seq<Chunk>, b: seq<Chunk>)
    requires AllWellFormed(a) && AllWellFormed(b)
    ensures AllWellFormed(a + b)
  {
    assert forall k :: 0 <= k < |a + b| ==> (a + b)[k] == if k < |a| then a[k] else b[k - |a|];
  }

  /** Every initial chunk is a generated chunk, and so well-formed. */
  lemma {:induction false} InitialWellFormed(source: nat -> ChunkDraws, first: nat, sin: real -> real, n: nat)
    ensures AllWellFormed(InitialChunks(source, first, sin, n))
  {
    if n > 0 {
      InitialWellFormed(source, first, sin, n - 1);
      var before := InitialChunks(source, first, sin, n - 1);
      var prev := if n == 1 then None else Some(LastCenter(before[n - 2]));
      MakeChunkWellFormed(InitialOffset(n - 1), InitialDifficulty, prev, source(first + n - 1), sin);
    }
  }

  /** The seed generate-ahead takes from a chunk: its FIRST centre, if it has one. */
  function FirstCenter(c: Chunk): (r: Option<real>)
    ensures r.Some? <==> |c.centerLine| > 0
    ensures r.Some? ==> r.value == c.centerLine[0]
  {
    if |c.centerLine| > 0 then Some(c.centerLine[0]) else None
  }

  /** y_offset * TILE_SIZE, the pixel top of a chunk. */
  function Top(c: Chunk): real
  {
    (c.yOffset * TileSize) as real
  }

  /** How many chunks generate-ahead appends above a chunk at row yOffset. */
  function AheadCount(yOffset: int, cameraTop: real): (n: nat)
    ensures n == 0 <==> (yOffset * TileSize) as real <= cameraTop
    decreases ((yOffset * TileSize) as real - cameraTop).Floor
  {
    if (yOffset * TileSize) as real <= cameraTop then 0
    else 1 + AheadCount(yOffset - ChunkHeight, cameraTop)
  }

  /** The first n chunks generate-ahead appends above last, the k-th drawing from
      source(first + k): each sits ChunkHeight rows above its predecessor and is
      seeded with the predecessor's first centre. */
  function AheadChunks(last: Chunk, difficulty: real, source: nat -> ChunkDraws, first: nat, sin: real -> real, n: nat): (r: seq<Chunk>)
    ensures |r| == n
    ensures forall k :: 0 <= k < n ==> r[k].difficulty == difficulty && r[k].yOffset == last.yOffset - ChunkHeight * (k + 1)
  {
    if n == 0 then []
    else
      var before := AheadChunks(last, difficulty, source, first, sin, n - 1);
      var below := if n == 1 then last else before[n - 2];
      before + [MakeChunk(below.yOffset - ChunkHeight, difficulty, FirstCenter(below), source(first + n - 1), sin)]
  }

  /** One more step of generate-ahead appends one chunk above the current last one. */
  lemma AheadStep(last: Chunk, difficulty: real, source: nat -> ChunkDraws, first: nat, sin: real -> real, n: nat)
    ensures var before := AheadChunks(last, difficulty, source, first, sin, n);
      var below := if n == 0 then last else before[n - 1];
      AheadChunks(last, difficulty, source, first, sin, n + 1) ==
        before + [MakeChunk(below.yOffset - ChunkHeight, difficulty, FirstCenter(below), source(first + n), sin)]
  {
    hide MakeChunk;
  }

  lemma {:induction false} AheadWellFormed(last: Chunk, difficulty: real, source: nat -> ChunkDraws, first: nat, sin: real -> real, n: nat)
    ensures AllWellFormed(AheadChunks(last, difficulty, source, first, sin, n))
  {
    if n > 0 {
      AheadWellFormed(last, difficulty, source, first, sin, n - 1);
      var before := AheadChunks(last, difficulty, source, first, sin, n - 1);
      var below := if n == 1 then last else before[n - 2];
      MakeChunkWellFormed(below.yOffset - ChunkHeight, difficulty, FirstCenter(below), source(first + n - 1), sin);
    }
  }

  lemma AheadCountStep(yOffset: int, cameraTop: real)
    requires (yOffset * TileSize) as real > cameraTop
    ensures AheadCount(yOffset, cameraTop) == 1 + AheadCount(yOffset - ChunkHeight, cameraTop)
  {
  }

  /** Everything one _check_and_generate_chunks call appends. */
  function Ahead(cs: seq<Chunk>, difficulty: real, cameraTop: real, source: nat -> ChunkDraws, first: nat, sin: real -> real): seq<Chunk>
  {
    if cs == [] then []
    else
      var last := cs[|cs| - 1];
      AheadChunks(last, difficulty, source, first, sin, AheadCount(last.yOffset, cameraTop))
  }

  lemma AheadAllWellFormed(cs: seq<Chunk>, difficulty: real, cameraTop: real, source: nat -> ChunkDraws, first: nat, sin: real -> real)
    requires AllWellFormed(cs)
    ensures AllWellFormed(cs + Ahead(cs, difficulty, cameraTop, source, first, sin))
  {
    hide MakeChunk;
    if cs != [] {
      var last := cs[|cs| - 1];
      AheadWellFormed(last, difficulty, source, first, sin, AheadCount(last.yOffset, cameraTop));
      AllWellFormedAppend(cs, Ahead(cs, difficulty, cameraTop, source, first, sin));
    } else {
      assert cs + [] == cs;
    }
  }

  /** After the pass the last chunk of a non-empty list has its top at or above the
      camera's look-ahead line, and the pass appended nothing it did not need: every
      appended chunk but the last still had its top below that line. */
  lemma AheadReachesTop(cs: seq<Chunk>, difficulty: real, cameraTop: real, source: nat -> ChunkDraws, first: nat, sin: real -> real)
    requires cs != []
    ensures var r := cs + Ahead(cs, difficulty, cameraTop, source, first, sin);
      && Top(r[|r| - 1]) <= cameraTop
      && forall k :: |cs| - 1 <= k < |r| - 1 ==> Top(r[k]) > cameraTop
  {
    hide MakeChunk;
    var last := cs[|cs| - 1];
    var n := AheadCount(last.yOffset, cameraTop);
    var a := AheadChunks(last, difficulty, source, first, sin, n);
    var r := cs + a;
    AheadCountTop(last.yOffset, cameraTop, n);
    forall k | |cs| - 1 <= k < |r| - 1
      ensures Top(r[k]) > cameraTop
    {
      var j := k - (|cs| - 1);
      AheadCountTop(last.yOffset, cameraTop, j);
      if j > 0 {
        assert r[k] == a[j - 1];
      }
    }
  }

  /** j steps of ChunkHeight above yOffset the top is still below the look-ahead line
      exactly while j is short of the count. */
  lemma {:induction false} AheadCountTop(yOffset: int, cameraTop: real, j: nat)
    requires j <= AheadCount(yOffset, cameraTop)
    ensures j < AheadCount(yOffset, cameraTop) ==> ((yOffset - ChunkHeight * j) * TileSize) as real > cameraTop
    ensures j == AheadCount(yOffset, cameraTop) ==> ((yOffset - ChunkHeight * j) * TileSize) as real <= cameraTop
    decreases j
  {
    if j > 0 {
      AheadCountTop(yOffset - ChunkHeight, cameraTop, j - 1);
      assert yOffset - ChunkHeight - ChunkHeight * (j - 1) == yOffset - ChunkHeight * j;
    }
  }

  /** The chunks _cleanup_old_chunks keeps: those whose top is above the bound. */
  predicate Visible(c: Chunk, bottom: real)
  {
    Top(c) < bottom
  }

  function KeepVisible(cs: seq<Chunk>, bottom: real): (r: seq<Chunk>)
    ensures |r| <= |cs|
    ensures forall k :: 0 <= k < |r| ==> Visible(r[k], bottom)
  {
    if cs == [] then []
    else if Visible(cs[0], bottom) then [cs[0]] + KeepVisible(cs[1..], bottom)
    else KeepVisible(cs[1..], bottom)
  }

  /** Exactly the visible chunks survive. */
  lemma {:induction false} KeepVisibleMembers(cs: seq<Chunk>, bottom: real)
    ensures forall c :: c in KeepVisible(cs, bottom) <==> c in cs && Visible(c, bottom)
  {
    if cs != [] {
      KeepVisibleMembers(cs[1..], bottom);
      assert forall c :: c in cs <==> c == cs[0] || c in cs[1..];
    }
  }

  lemma {:induction false} KeepVisibleWellFormed(cs: seq<Chunk>, bottom: real)
    requires AllWellFormed(cs)
    ensures AllWellFormed(KeepVisible(cs, bottom))
  {
    if cs != [] {
      assert AllWellFormed(cs[1..]) by {
        assert forall k :: 0 <= k < |cs| - 1 ==> cs[1..][k] == cs[k + 1];
      }
      KeepVisibleWellFormed(cs[1..], bottom);
      var rest := KeepVisible(cs[1..], bottom);
      if Visible(cs[0], bottom) {
        assert forall k :: 0 < k < |rest| + 1 ==> ([cs[0]] + rest)[k] == rest[k - 1];
      }
    }
  }

  /** The filter keeps relative order: it distributes over concatenation. */
  lemma {:induction false} KeepVisibleAppend(a: seq<Chunk>, b: seq<Chunk>, bottom: real)
    ensures KeepVisible(a + b, bottom) == KeepVisible(a, bottom) + KeepVisible(b, bottom)
  {
    if a == [] {
      assert a + b == b;
    } else {
      assert (a + b)[0] == a[0];
      assert (a + b)[1..] == a[1..] + b;
      KeepVisibleAppend(a[1..], b, bottom);
    }
  }

  /** A visible last chunk survives the filter and stays last. */
  lemma KeepVisibleLast(cs: seq<Chunk>, bottom: real)
    requires cs != [] && Visible(cs[|cs| - 1], bottom)
    ensures var r := KeepVisible(cs, bottom); r != [] && r[|r| - 1] == cs[|cs| - 1]
  {
    var n := |cs|;
    assert cs == cs[..n - 1] + [cs[n - 1]];
    KeepVisibleAppend(cs[..n - 1], [cs[n - 1]], bottom);
    assert KeepVisible([cs[n - 1]], bottom) == [cs[n - 1]];
  }

  /** Rows of tiles a chunk holds: [y_offset, y_offset + height). */
  predicate Covers(c: Chunk, tileY: int)
  {
    c.yOffset <= tileY < c.yOffset + ChunkHeight
  }

  /** The index get_tile_at_world_pos answers from: the first chunk in list order
      that covers the tile row, or none. */
  function FirstCovering(cs: seq<Chunk>, tileY: int): (r: Option<nat>)
    ensures r.Some? ==> r.value < |cs| && Covers(cs[r.value], tileY)
    ensures r.Some? ==> forall j :: 0 <= j < r.value ==> !Covers(cs[j], tileY)
    ensures r.None? ==> forall j :: 0 <= j < |cs| ==> !Covers(cs[j], tileY)
  {
    if cs == [] then None
    else if Covers(cs[0], tileY) then Some(0)
    else
      match FirstCovering(cs[1..], tileY)
      case None => None
      case Some(i) => Some(i + 1)
  }

  /** Appending chunks never changes an answer the list already had. */
  lemma FirstCoveringAppend(a: seq<Chunk>, b: seq<Chunk>, tileY: int)
    requires FirstCovering(a, tileY).Some?
    ensures FirstCovering(a + b, tileY) == FirstCovering(a, tileY)
  {
    var i := FirstCovering(a, tileY).value;
    FirstCoveringIs(a + b, tileY, i);
  }

  /** A covering index with no covering index before it is the first one. */
  lemma FirstCoveringIs(cs: seq<Chunk>, tileY: int, i: nat)
    requires i < |cs| && Covers(cs[i], tileY)
    requires forall j :: 0 <= j < i ==> !Covers(cs[j], tileY)
    ensures FirstCovering(cs, tileY) == Some(i)
  {
    var r := FirstCovering(cs, tileY);
    assert r.Some?;
    assert !(r.value < i);
  }

  /** The surface label of a tile code; every code that is not a surface reads as
      "gravel", GRASS included. */
  function SurfaceLabel(code: int): (s: string)
    ensures s != "grass"
    ensures s == "dirt" <==> code == Dirt
    ensures s == "tarmac" <==> code == Tarmac
    ensures s == "mud" <==> code == Mud
    ensures s == "gravel" <==> code != Dirt && code != Tarmac && code != Mud
  {
    if code == Gravel then "gravel"
    else if code == Dirt then "dirt"
    else if code == Tarmac then "tarmac"
    else if code == Mud then "mud"
    else "gravel"
  }

  /** The codes is_on_track accepts. */
  predicate IsTrackCode(code: int)
  {
    code == Gravel || code == Dirt || code == Tarmac || code == Mud
  }

  /** The camera, distance and difficulty update computes from the car's y. */
  function CameraFor(carY: real): real
  {
    carY - (Config.ScreenHeight / 2) as real
  }

  function DistanceFor(carY: real): (d: real)
    ensures d >= 0.0
    ensures carY <= InitialCarY as real ==> d == (InitialCarY as real - carY) / 10.0
    ensures carY >= InitialCarY as real ==> d == 0.0
  {
    Max(0.0, (InitialCarY as real - carY) / 10.0)
  }

  function DifficultyFor(distance: real): (d: real)
    requires distance >= 0.0
    ensures 0.0 <= d <= 1.0
    ensures d == 1.0 <==> distance >= 1.0 / DifficultyIncreaseRate
  {
    Min(1.0, distance * DifficultyIncreaseRate)
  }

  /** Difficulty is non-increasing in the car's y, so it only grows as the car climbs. */
  lemma DifficultyMonotone(y1: real, y2: real)
    requires y1 <= y2
    ensures DifficultyFor(DistanceFor(y2)) <= DifficultyFor(DistanceFor(y1))
  {
    assert DistanceFor(y2) <= DistanceFor(y1);
    assert DistanceFor(y2) * DifficultyIncreaseRate <= DistanceFor(y1) * DifficultyIncreaseRate;
  }

  /** The initial twenty chunks tile rows -169 .. 230 with no gap and no overlap:
      chunk i starts 20 rows below chunk i-1 ends, and a lookup of any of those rows
      finds the unique chunk holding it. */
  lemma InitialLayout(source: nat -> ChunkDraws, first: nat, sin: real -> real, tileY: int)
    requires -169 <= tileY < 231
    ensures var r := InitialChunks(source, first, sin, InitialChunkCount);
      && r[0].yOffset == -169 && r[19].yOffset == 211
      && (forall k :: 0 < k < 20 ==> r[k].yOffset == r[k - 1].yOffset + ChunkHeight)
      && FirstCovering(r, tileY) == Some((tileY + 169) / 20)
  {
    hide MakeChunk;
    var r := InitialChunks(source, first, sin, InitialChunkCount);
    var i := (tileY + 169) / 20;
    assert r[i].yOffset == -169 + 20 * i;
    forall j | 0 <= j < i
      ensures !Covers(r[j], tileY)
    {
      assert r[j].yOffset == -169 + 20 * j;
    }
    FirstCoveringIs(r, tileY, i);
  }

  /** Every initial chunk after the first starts from its predecessor's last centre. */
  lemma InitialSeeding(source: nat -> ChunkDraws, first: nat, sin: real -> real, k: nat)
    requires 0 < k < InitialChunkCount
    ensures var r := InitialChunks(source, first, sin, InitialChunkCount);
      r[k] == MakeChunk(InitialOffset(k), InitialDifficulty, Some(LastCenter(r[k - 1])), source(first + k), sin)
  {
    hide MakeChunk;
    InitialPrefix(source, first, sin, k, InitialChunkCount);
    InitialPrefix(source, first, sin, k - 1, InitialChunkCount);
    InitialPrefix(source, first, sin, k - 1, k);
  }

  lemma {:induction false} InitialPrefix(source: nat -> ChunkDraws, first: nat, sin: real -> real, k: nat, n: nat)
    requires k < n
    ensures InitialChunks(source, first, sin, n)[k] == InitialChunks(source, first, sin, k + 1)[k]
    decreases n
  {
    hide MakeChunk;
    if n > k + 1 {
      InitialPrefix(source, first, sin, k, n - 1);
    }
  }

  /** The first generate-ahead pass after the initial layout places its first chunk on
      the same rows as initial chunk 18 (the pass starts from the bottom-most chunk),
      seeded with chunk 19's first centre; lookups on those rows still answer from
      initial chunk 18. */
  lemma FirstPassOverlaps(source: nat -> ChunkDraws, sin: real -> real, difficulty: real, cameraTop: real, tileY: int)
    requires cameraTop < 3376.0
    requires 191 <= tileY < 211
    ensures var init := InitialChunks(source, 0, sin, InitialChunkCount);
      var a := Ahead(init, difficulty, cameraTop, source, InitialChunkCount, sin);
      && a != []
      && a[0].yOffset == init[18].yOffset
      && a[0] == MakeChunk(191, difficulty, FirstCenter(init[19]), source(20), sin)
      && FirstCovering(init + a, tileY) == Some(18)
  {
    hide MakeChunk;
    hide InitialChunks;
    var init := InitialChunks(source, 0, sin, InitialChunkCount);
    var a := Ahead(init, difficulty, cameraTop, source, InitialChunkCount, sin);
    assert init[19].yOffset == 211;
    assert AheadCount(211, cameraTop) > 0;
    AheadPrefix(init[19], difficulty, source, InitialChunkCount, sin, 0, AheadCount(211, cameraTop));
    InitialLayout(source, 0, sin, tileY);
    FirstCoveringAppend(init, a, tileY);
  }

  lemma {:induction false} AheadPrefix(last: Chunk, difficulty: real, source: nat -> ChunkDraws, first: nat, sin: real -> real, k: nat, n: nat)
    requires k < n
    ensures AheadChunks(last, difficulty, source, first, sin, n)[k] == AheadChunks(last, difficulty, source, first, sin, k + 1)[k]
    decreases n
  {
    hide MakeChunk;
    if n > k + 1 {
      AheadPrefix(last, difficulty, source, first, sin, k, n - 1);
    }
  }

  /** After an update the list is non-empty and its last chunk already reaches the
      look-ahead line: generate-ahead's last chunk survives the cleanup. */
  lemma UpdateKeepsLookahead(cs: seq<Chunk>, difficulty: real, cameraY: real, source: nat -> ChunkDraws, first: nat, sin: real -> real)
    requires cs != []
    ensures var r := KeepVisible(cs + Ahead(cs, difficulty, cameraY - AheadBuffer, source, first, sin), cameraY + BehindBuffer);
      r != [] && Top(r[|r| - 1]) <= cameraY - AheadBuffer
  {
    hide MakeChunk;
    var g := cs + Ahead(cs, difficulty, cameraY - AheadBuffer, source, first, sin);
    AheadReachesTop(cs, difficulty, cameraY - AheadBuffer, source, first, sin);
    KeepVisibleLast(g, cameraY + BehindBuffer);
  }

  /** AdvancedEndlessPixelTrack */
  class Track {
    var chunks: seq<Chunk>
    var cameraY: real
    var distanceTraveled: real
    var difficulty: real
    /** the running number of the next chunk's draws */
    var drawn: nat
    const source: nat -> ChunkDraws
    const sin: real -> real

    ghost predicate Valid()
      reads this
    {
      && chunks != []
      && AllWellFormed(chunks)
      && distanceTraveled >= 0.0
      && difficulty == DifficultyFor(distanceTraveled)
    }

    /** __init__ */
    constructor(source: nat -> ChunkDraws, sin: real -> real)
      ensures Valid()
      ensures this.source == source && this.sin == sin
      ensures cameraY == InitialCameraY && distanceTraveled == 0.0 && difficulty == 0.0
      ensures chunks == InitialChunks(source, 0, sin, InitialChunkCount) && drawn == InitialChunkCount
    {
      hide MakeChunk;
      hide InitialChunks;
      this.source := source;
      this.sin := sin;
      chunks := [];
      cameraY := InitialCameraY;
      distanceTraveled := 0.0;
      difficulty := 0.0;
      drawn := 0;
      new;
      GenerateInitialChunks();
      InitialWellFormed(source, 0, sin, InitialChunkCount);
    }

    /** _generate_initial_chunks: appends the twenty initial chunks. */
    method GenerateInitialChunks()
      modifies this
      ensures chunks == old(chunks) + InitialChunks(source, old(drawn), sin, InitialChunkCount)
      ensures drawn == old(drawn) + InitialChunkCount
      ensures cameraY == old(cameraY) && distanceTraveled == old(distanceTraveled) && difficulty == old(difficulty)
    {
      hide MakeChunk;
      var cs := chunks;
      var next := drawn;
      var prevCenter: Option<real> := None;
      for i := 0 to InitialChunkCount
        modifies {}
        invariant cs == old(chunks) + InitialChunks(source, old(drawn), sin, i)
        invariant next == old(drawn) + i
        invariant prevCenter == if i == 0 then None else Some(LastCenter(cs[|cs| - 1]))
      {
        var yOffset := CarTileY - (InitialChunkCount as int / 2 - i) * ChunkHeight;
        var chunk := NewChunk(yOffset, InitialDifficulty, prevCenter, source(next), sin);
        next := next + 1;
        cs := cs + [chunk];
        prevCenter := Some(LastCenter(chunk));
      }
      chunks := cs;
      drawn := next;
    }

    /** update(car_y): camera, distance and difficulty follow the car, then the list
        is extended upward and trimmed below. */
    method Update(carY: real)
      requires Valid()
      modifies this
      ensures Valid()
      ensures cameraY == CameraFor(carY) && distanceTraveled == DistanceFor(carY)
      ensures difficulty == DifficultyFor(DistanceFor(carY))
      ensures chunks == KeepVisible(old(chunks) + Ahead(old(chunks), difficulty, cameraY - AheadBuffer, source, old(drawn), sin), cameraY + BehindBuffer)
      ensures Top(chunks[|chunks| - 1]) <= cameraY - AheadBuffer
      ensures drawn == old(drawn) + |Ahead(old(chunks), difficulty, cameraY - AheadBuffer, source, old(drawn), sin)|
    {
      hide MakeChunk;
      hide KeepVisible;
      hide Ahead;
      cameraY := carY - (Config.ScreenHeight / 2) as real;
      distanceTraveled := Max(0.0, (InitialCarY as real - carY) / 10.0);
      difficulty := Min(1.0, distanceTraveled * DifficultyIncreaseRate);
      AheadAllWellFormed(chunks, difficulty, cameraY - AheadBuffer, source, drawn, sin);
      CheckAndGenerateChunks();
      CleanupOldChunks();
      UpdateKeepsLookahead(old(chunks), difficulty, cameraY, source, old(drawn), sin);
    }

    /** _check_and_generate_chunks: while the last chunk's top is below the look-ahead
        line, append a chunk ChunkHeight rows above it, seeded with its first centre. */
    method CheckAndGenerateChunks()
      modifies this
      ensures chunks == old(chunks) + Ahead(old(chunks), difficulty, cameraY - AheadBuffer, source, old(drawn), sin)
      ensures drawn == old(drawn) + |chunks| - |old(chunks)|
      ensures cameraY == old(cameraY) && distanceTraveled == old(distanceTraveled) && difficulty == old(difficulty)
    {
      hide MakeChunk;
      hide AheadChunks;
      hide AheadCount;
      if chunks == [] {
        return;
      }
      var cs := chunks;
      var next := drawn;
      var lastChunk := cs[|cs| - 1];
      var lastChunkTop := (lastChunk.yOffset * TileSize) as real;
      var cameraTop := cameraY - AheadBuffer;
      ghost var bottom := lastChunk;
      ghost var total := AheadCount(bottom.yOffset, cameraTop);
      ghost var ahead: seq<Chunk> := [];
      while lastChunkTop > cameraTop
        modifies {}
        invariant |ahead| <= total
        invariant ahead == AheadChunks(bottom, difficulty, source, old(drawn), sin, |ahead|)
        invariant cs == old(chunks) + ahead
        invariant next == old(drawn) + |ahead|
        invariant lastChunk == (if ahead == [] then bottom else ahead[|ahead| - 1])
        invariant lastChunkTop == Top(lastChunk)
        invariant AheadCount(lastChunk.yOffset, cameraTop) == total - |ahead|
        decreases total - |ahead|
      {
        var newYOffset := lastChunk.yOffset - ChunkHeight;
        var prevCenter := if |lastChunk.centerLine| > 0 then Some(lastChunk.centerLine[0]) else None;
        var newChunk := NewChunk(newYOffset, difficulty, prevCenter, source(next), sin);
        AheadStep(bottom, difficulty, source, old(drawn), sin, |ahead|);
        AheadCountStep(lastChunk.yOffset, cameraTop);
        next := next + 1;
        cs := cs + [newChunk];
        ahead := ahead + [newChunk];
        lastChunk := newChunk;
        lastChunkTop := (lastChunk.yOffset * TileSize) as real;
      }
      chunks := cs;
      drawn := next;
    }

    /** _cleanup_old_chunks: keeps the chunks whose top is above camera_y + 1000. */
    method CleanupOldChunks()
      modifies this
      ensures chunks == KeepVisible(old(chunks), cameraY + BehindBuffer)
      ensures forall c :: c in chunks <==> c in old(chunks) && Top(c) < cameraY + BehindBuffer
      ensures AllWellFormed(old(chunks)) ==> AllWellFormed(chunks)
      ensures cameraY == old(cameraY) && distanceTraveled == old(distanceTraveled) && difficulty == old(difficulty)
      ensures drawn == old(drawn)
    {
      var cameraBottom := cameraY + BehindBuffer;
      KeepVisibleMembers(chunks, cameraBottom);
      if AllWellFormed(chunks) {
        KeepVisibleWellFormed(chunks, cameraBottom);
      }
      chunks := KeepVisible(chunks, cameraBottom);
    }

    /** get_tile_at_world_pos: the first chunk covering the row answers, GRASS if none. */
    function GetTileAtWorldPos(tileX: int, tileY: int): (t: int)
      reads this
      requires Valid()
      ensures t == Grass || IsRowSurface(t)
      ensures FirstCovering(chunks, tileY).None? ==> t == Grass
      ensures t != Grass <==>
        FirstCovering(chunks, tileY).Some? &&
        TrackGenerator.IsOnTrack(chunks[FirstCovering(chunks, tileY).value], (tileX * TileSize) as real, tileY as real)
      ensures FirstCovering(chunks, tileY).Some? ==> t == TileAt(chunks[FirstCovering(chunks, tileY).value], tileX, tileY)
    {
      match FirstCovering(chunks, tileY)
      case None => Grass
      case Some(i) =>
        assert chunks[i] in chunks;
        TileAgreesWithIsOnTrack(chunks[i], tileX, tileY);
        TileAt(chunks[i], tileX, tileY)
    }

    /** get_surface_at_position((x, y)) */
    function GetSurfaceAtPosition(x: real, y: real): (s: string)
      reads this
      requires Valid()
      ensures s == "gravel" || s == "dirt" || s == "tarmac"
      ensures s == SurfaceLabel(GetTileAtWorldPos(TileCoord(x), TileCoord(y)))
    {
      SurfaceLabel(GetTileAtWorldPos(TileCoord(x), TileCoord(y)))
    }

    /** is_on_track((x, y)): the tile under the point carries a surface code. */
    predicate IsOnTrack(x: real, y: real)
      reads this
      requires Valid()
    {
      IsTrackCode(GetTileAtWorldPos(TileCoord(x), TileCoord(y)))
    }

    function GetDistanceTraveled(): (d: real)
      reads this
      requires Valid()
      ensures d >= 0.0
    {
      distanceTraveled
    }

    function GetDifficulty(): (d: real)
      reads this
      requires Valid()
      ensures 0.0 <= d <= 1.0
    {
      difficulty
    }
  }

  /** On a valid track, is_on_track holds exactly when a chunk covers the tile row and
      the first such chunk's own point query puts the tile's left edge on the track;
      the grass "gravel" fallback of the label is then the only off-track reading. */
  lemma OnTrackMeansCoveredBand(t: Track, x: real, y: real)
    requires t.Valid()
    ensures t.IsOnTrack(x, y) <==> t.GetTileAtWorldPos(TileCoord(x), TileCoord(y)) != Grass
    ensures !t.IsOnTrack(x, y) ==> t.GetSurfaceAtPosition(x, y) == "gravel"
  {
  }
}
