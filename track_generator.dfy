/** advanced_track_generator.py: one 20-row strip of procedurally generated track.

    Every random.random() value the generator consumes is an input here (a real the
    caller supplies), and random.uniform(a, b) is Python's a + (b - a) * u of such a
    value. math.sin is a parameter as well, so nothing below depends on its values
    except where a lemma asks for it to stay within [-1, 1]. */
module TrackGenerator {
  import opened Common
  import opened TrackConfig
  import Config

  const MinCenter: real := 60.0
  const MaxCenter: real := (Config.ScreenWidth - 60) as real
  /** self.width // 2, the start centre of a chunk that has no predecessor */
  const DefaultCenter: real := (Config.ScreenWidth / 2) as real
  const MinTrackWidth: real := 50.0
  /** math.pi * 2 as a double */
  const TwoPi: real := 6.283185307179586

  datatype Section = Straight | Curve | Hairpin | Chicane | Elevation

  /** The four random.random() values one row consumes, in the order the loop draws them. */
  datatype RowDraws = RowDraws(curve: real, baseWidth: real, widthVariation: real, surface: real)

  /** What one chunk draws: the random.choice of the section, the curve-direction and
      phase draws taken once per chunk, and the draws of each row. */
  datatype ChunkDraws = ChunkDraws(section: Section, direction: real, phase: real, row: nat -> RowDraws)

  /** A value random.random() can return. */
  predicate UnitDraw(u: real) { 0.0 <= u < 1.0 }

  predicate RowInRange(r: RowDraws)
  {
    UnitDraw(r.curve) && UnitDraw(r.baseWidth) && UnitDraw(r.widthVariation) && UnitDraw(r.surface)
  }

  predicate DrawsInRange(d: ChunkDraws)
  {
    UnitDraw(d.direction) && UnitDraw(d.phase) &&
    forall i: nat :: i < ChunkHeight ==> RowInRange(d.row(i))
  }

  ghost predicate SineBounded(sin: real -> real)
  {
    forall x :: -1.0 <= sin(x) <= 1.0
  }

  /** random.uniform(a, b) given the underlying random.random() value u */
  function Uniform(a: real, b: real, u: real): real { a + (b - a) * u }

  lemma UniformBounds(a: real, b: real, u: real)
    requires a <= b && 0.0 <= u <= 1.0
    ensures a <= Uniform(a, b, u) <= b
  {
    var k := b - a;
    MulBetween(k, u);
    assert Uniform(a, b, u) == a + k * u;
  }

  lemma MulBetween(k: real, u: real)
    requires k >= 0.0 && 0.0 <= u <= 1.0
    ensures 0.0 <= k * u <= k
  {
    assert k - k * u == k * (1.0 - u);
  }

  /** curve_direction = 1 if random.random() > 0.5 else -1 */
  function CurveDirection(u: real): (s: real)
    ensures s == 1.0 || s == -1.0
  {
    if u > 0.5 then 1.0 else -1.0
  }

  /** curve_amount for row i of a chunk */
  function CurveAmount(d: ChunkDraws, difficulty: real, sin: real -> real, i: nat): real
  {
    var u := d.row(i).curve;
    match d.section
    case Straight => Uniform(-0.8, 0.8, u)
    case Curve => CurveDirection(d.direction) * Uniform(1.0, 2.0 * (1.0 + difficulty), u)
    case Hairpin => Uniform(-5.0, 5.0, u) * (1.0 + difficulty)
    case Chicane => sin(i as real * 0.8) * 3.0 + Uniform(-1.0, 1.0, u)
    case Elevation => sin(i as real * 0.3 + Uniform(0.0, TwoPi, d.phase)) * 2.0 + Uniform(-1.0, 1.0, u)
  }

  /** track_width for one row: a section-dependent base plus a variation, floored at 50. */
  function RowWidth(s: Section, r: RowDraws): (w: real)
    ensures w >= MinTrackWidth
  {
    var baseWidth :=
      if s == Hairpin then Uniform(70.0, 90.0, r.baseWidth)
      else if s == Straight then Uniform(100.0, 130.0, r.baseWidth)
      else Uniform(80.0, 110.0, r.baseWidth);
    Max(MinTrackWidth, baseWidth + Uniform(-15.0, 15.0, r.widthVariation))
  }

  /** _determine_surface_type_by_section on the draw r */
  function SurfaceBySection(s: Section, r: real): (t: int)
    ensures IsRowSurface(t)
  {
    match s
    case Straight => if r < 0.6 then Tarmac else if r < 0.8 then Gravel else Dirt
    case Hairpin => if r < 0.5 then Gravel else if r < 0.7 then Dirt else Tarmac
    case Elevation => if r < 0.5 then Dirt else if r < 0.7 then Gravel else Tarmac
    case _ => if r < 0.35 then Tarmac else if r < 0.65 then Gravel else Dirt
  }

  /** One outcome of a weighted choice and its probability. */
  datatype Band = Band(code: int, weight: real)

  /** The surface probabilities of each section, listed in the order the code tests them. */
  function SurfaceWeights(s: Section): seq<Band>
  {
    match s
    case Straight => [Band(Tarmac, 0.6), Band(Gravel, 0.2), Band(Dirt, 0.2)]
    case Hairpin => [Band(Gravel, 0.5), Band(Dirt, 0.2), Band(Tarmac, 0.3)]
    case Elevation => [Band(Dirt, 0.5), Band(Gravel, 0.2), Band(Tarmac, 0.3)]
    case _ => [Band(Tarmac, 0.35), Band(Gravel, 0.3), Band(Dirt, 0.35)]
  }

  /** Inverse-CDF choice from one uniform draw: the first band whose cumulative weight
      exceeds r, the last band otherwise. */
  function Pick(bands: seq<Band>, r: real): int
    requires |bands| > 0
  {
    if |bands| == 1 || r < bands[0].weight then bands[0].code
    else Pick(bands[1..], r - bands[0].weight)
  }

  function TotalWeight(bands: seq<Band>): real
  {
    if bands == [] then 0.0 else bands[0].weight + TotalWeight(bands[1..])
  }

  /** The threshold chains of the code are exactly inverse-CDF choices from the
      probability tables, and each table is a distribution. */
  lemma SurfaceFollowsWeights(s: Section, r: real)
    ensures SurfaceBySection(s, r) == Pick(SurfaceWeights(s), r)
    ensures TotalWeight(SurfaceWeights(s)) == 1.0
  {
    var b := SurfaceWeights(s);
    assert b[1..][1..] == [b[2]];
    assert Pick(b[1..][1..], r - b[0].weight - b[1].weight) == b[2].code;
    assert |b[1..]| == 2 && b[1..][0] == b[1];
    assert Pick(b[1..], r - b[0].weight) ==
      if r - b[0].weight < b[1].weight then b[1].code else b[2].code;
    assert TotalWeight(b[1..][1..]) == b[2].weight;
  }

  /** A chunk as its constructor leaves it; nothing changes it afterwards. The height
      is always ChunkHeight and the strip spans the whole screen width. */
  datatype Chunk = Chunk(
    yOffset: int,
    difficulty: real,
    centerLine: seq<real>,
    trackWidth: seq<real>,
    surfaceTypes: seq<int>)

  /** The three per-row lists are parallel; the queries index them together. */
  predicate Parallel(c: Chunk)
  {
    |c.trackWidth| == |c.centerLine|
  }

  /** What every generated chunk satisfies. */
  predicate WellFormed(c: Chunk)
  {
    |c.centerLine| == ChunkHeight && |c.trackWidth| == ChunkHeight && |c.surfaceTypes| == ChunkHeight &&
    (forall k :: 0 <= k < ChunkHeight ==> MinCenter <= c.centerLine[k] <= MaxCenter) &&
    (forall k :: 0 <= k < ChunkHeight ==> c.trackWidth[k] >= MinTrackWidth) &&
    (forall k :: 0 <= k < ChunkHeight ==> IsRowSurface(c.surfaceTypes[k]))
  }

  /** The centres of the first n rows when the running centre starts at start: each
      row clamps the row above (the start for row 0) plus its own curve amount. */
  function CentersUpTo(start: real, difficulty: real, d: ChunkDraws, sin: real -> real, n: nat): (r: seq<real>)
    ensures |r| == n
    ensures forall k :: 0 <= k < n ==> MinCenter <= r[k] <= MaxCenter
  {
    if n == 0 then []
    else
      var above := CentersUpTo(start, difficulty, d, sin, n - 1);
      var prev := if n == 1 then start else above[n - 2];
      above + [Clamp(prev + CurveAmount(d, difficulty, sin, n - 1), MinCenter, MaxCenter)]
  }

  function CenterLine(start: real, difficulty: real, d: ChunkDraws, sin: real -> real): seq<real>
  {
    CentersUpTo(start, difficulty, d, sin, ChunkHeight)
  }

  /** The widths of the first n rows. */
  function WidthsUpTo(d: ChunkDraws, n: nat): (r: seq<real>)
    ensures |r| == n
    ensures forall k :: 0 <= k < n ==> r[k] >= MinTrackWidth
  {
    if n == 0 then [] else WidthsUpTo(d, n - 1) + [RowWidth(d.section, d.row(n - 1))]
  }

  /** The surface codes of the first n rows. */
  function SurfacesUpTo(d: ChunkDraws, n: nat): (r: seq<int>)
    ensures |r| == n
    ensures forall k :: 0 <= k < n ==> IsRowSurface(r[k])
  {
    if n == 0 then [] else SurfacesUpTo(d, n - 1) + [SurfaceBySection(d.section, d.row(n - 1).surface)]
  }

  function Widths(d: ChunkDraws): seq<real> { WidthsUpTo(d, ChunkHeight) }

  function Surfaces(d: ChunkDraws): seq<int> { SurfacesUpTo(d, ChunkHeight) }

  /** start_center: the screen midpoint without a predecessor, else prev_center */
  function StartCenter(prevCenter: Option<real>): real
  {
    if prevCenter.None? then DefaultCenter else prevCenter.value
  }

  /** The chunk AdvancedTrackChunk(y_offset, difficulty, prev_center) builds. */
  function MakeChunk(yOffset: int, difficulty: real, prevCenter: Option<real>, d: ChunkDraws, sin: real -> real): (c: Chunk)
    ensures c.yOffset == yOffset && c.difficulty == difficulty
  {
    Chunk(yOffset, difficulty, CenterLine(StartCenter(prevCenter), difficulty, d, sin), Widths(d), Surfaces(d))
  }

  /** Every chunk the constructor builds has 20 rows in each list, centres in
      [60, 740], widths of at least 50 and a surface code of 1, 2 or 3 per row. */
  lemma MakeChunkWellFormed(yOffset: int, difficulty: real, prevCenter: Option<real>, d: ChunkDraws, sin: real -> real)
    ensures WellFormed(MakeChunk(yOffset, difficulty, prevCenter, d, sin))
  {
  }

  /** _generate_rally_track: the row loop that moves the running centre and appends to
      the three lists. */
  method GenerateRallyTrack(startCenter: real, difficulty: real, d: ChunkDraws, sin: real -> real)
    returns (centers: seq<real>, widths: seq<real>, surfaces: seq<int>)
    ensures centers == CenterLine(startCenter, difficulty, d, sin)
    ensures widths == Widths(d) && surfaces == Surfaces(d)
    ensures |centers| == |widths| == |surfaces| == ChunkHeight
  {
    var currentCenter := startCenter;
    centers, widths, surfaces := [], [], [];
    for i := 0 to ChunkHeight
      invariant centers == CentersUpTo(startCenter, difficulty, d, sin, i)
      invariant currentCenter == if i == 0 then startCenter else centers[i - 1]
      invariant widths == WidthsUpTo(d, i)
      invariant surfaces == SurfacesUpTo(d, i)
    {
      var curveAmount := CurveAmount(d, difficulty, sin, i);
      currentCenter := currentCenter + curveAmount;
      currentCenter := Clamp(currentCenter, MinCenter, MaxCenter);
      centers := centers + [currentCenter];

      var trackWidth := RowWidth(d.section, d.row(i));
      widths := widths + [trackWidth];

      var surfaceType := SurfaceBySection(d.section, d.row(i).surface);
      surfaces := surfaces + [surfaceType];
    }
  }

  /** AdvancedTrackChunk.__init__ */
  method NewChunk(yOffset: int, difficulty: real, prevCenter: Option<real>, d: ChunkDraws, sin: real -> real)
    returns (c: Chunk)
    ensures c == MakeChunk(yOffset, difficulty, prevCenter, d, sin)
  {
    var startCenter := StartCenter(prevCenter);
    var centers, widths, surfaces := GenerateRallyTrack(startCenter, difficulty, d, sin);
    c := Chunk(yOffset, difficulty, centers, widths, surfaces);
  }

  /** Extending the row count keeps the rows already generated. */
  lemma {:induction false} CentersPrefix(start: real, difficulty: real, d: ChunkDraws, sin: real -> real, k: nat, n: nat)
    requires k < n
    ensures CentersUpTo(start, difficulty, d, sin, n)[k] == CentersUpTo(start, difficulty, d, sin, k + 1)[k]
    decreases n
  {
    if n > k + 1 {
      CentersPrefix(start, difficulty, d, sin, k, n - 1);
    }
  }

  /** The first centre is clamp(start + delta 0), not start itself; every later centre
      is the clamp of the row above plus its own delta, so it moves by at most that delta. */
  lemma CenterSteps(start: real, difficulty: real, d: ChunkDraws, sin: real -> real, k: nat)
    requires k < ChunkHeight
    ensures var r := CenterLine(start, difficulty, d, sin);
      && (k == 0 ==> r[0] == Clamp(start + CurveAmount(d, difficulty, sin, 0), MinCenter, MaxCenter))
      && (k > 0 ==> r[k] == Clamp(r[k - 1] + CurveAmount(d, difficulty, sin, k), MinCenter, MaxCenter))
      && (k > 0 ==> Abs(r[k] - r[k - 1]) <= Abs(CurveAmount(d, difficulty, sin, k)))
  {
    var r := CenterLine(start, difficulty, d, sin);
    var a := CurveAmount(d, difficulty, sin, k);
    CentersPrefix(start, difficulty, d, sin, k, ChunkHeight);
    if k > 0 {
      CentersPrefix(start, difficulty, d, sin, k - 1, ChunkHeight);
      CentersPrefix(start, difficulty, d, sin, k - 1, k);
      ClampIsNonExpanding(r[k - 1] + a, r[k - 1], MinCenter, MaxCenter);
    }
  }

  /** The per-section bounds on the lateral delta of a row, for draws in range and a
      non-negative difficulty. A curve chunk keeps one sign for all its rows. */
  lemma CurveBounds(d: ChunkDraws, difficulty: real, sin: real -> real, i: nat)
    requires DrawsInRange(d) && SineBounded(sin) && i < ChunkHeight && difficulty >= 0.0
    ensures var a := CurveAmount(d, difficulty, sin, i);
      && (d.section == Straight ==> Abs(a) <= 0.8)
      && (d.section == Hairpin ==> Abs(a) <= 5.0 * (1.0 + difficulty))
      && (d.section == Curve ==> 1.0 <= Abs(a) <= 2.0 * (1.0 + difficulty))
      && (d.section == Curve ==> a * CurveDirection(d.direction) > 0.0)
      && (d.section == Chicane ==> Abs(a) <= 4.0)
      && (d.section == Elevation ==> Abs(a) <= 3.0)
  {
    assert RowInRange(d.row(i));
    match d.section
    case Straight => UniformBounds(-0.8, 0.8, d.row(i).curve);
    case Curve => CurveSectionBounds(d, difficulty, sin, i);
    case Hairpin => HairpinBounds(d, difficulty, sin, i);
    case Chicane => ChicaneBounds(d, difficulty, sin, i);
    case Elevation => ElevationBounds(d, difficulty, sin, i);
  }

  lemma CurveSectionBounds(d: ChunkDraws, difficulty: real, sin: real -> real, i: nat)
    requires d.section == Curve && RowInRange(d.row(i)) && difficulty >= 0.0
    ensures var a := CurveAmount(d, difficulty, sin, i);
      1.0 <= Abs(a) <= 2.0 * (1.0 + difficulty) && a * CurveDirection(d.direction) > 0.0
  {
    var v := Uniform(1.0, 2.0 * (1.0 + difficulty), d.row(i).curve);
    UniformBounds(1.0, 2.0 * (1.0 + difficulty), d.row(i).curve);
    assert CurveAmount(d, difficulty, sin, i) == CurveDirection(d.direction) * v;
  }

  lemma HairpinBounds(d: ChunkDraws, difficulty: real, sin: real -> real, i: nat)
    requires d.section == Hairpin && RowInRange(d.row(i)) && difficulty >= 0.0
    ensures Abs(CurveAmount(d, difficulty, sin, i)) <= 5.0 * (1.0 + difficulty)
  {
    var v := Uniform(-5.0, 5.0, d.row(i).curve);
    UniformBounds(-5.0, 5.0, d.row(i).curve);
    var k := 1.0 + difficulty;
    assert CurveAmount(d, difficulty, sin, i) == v * k;
    assert Abs(v * k) == Abs(v) * k;
    MulMono(Abs(v), 5.0, k);
  }

  lemma MulMono(x: real, y: real, k: real)
    requires x <= y && k >= 0.0
    ensures x * k <= y * k
  {
  }

  lemma ChicaneBounds(d: ChunkDraws, difficulty: real, sin: real -> real, i: nat)
    requires d.section == Chicane && RowInRange(d.row(i)) && SineBounded(sin)
    ensures Abs(CurveAmount(d, difficulty, sin, i)) <= 4.0
  {
    UniformBounds(-1.0, 1.0, d.row(i).curve);
    assert -1.0 <= sin(i as real * 0.8) <= 1.0;
  }

  lemma ElevationBounds(d: ChunkDraws, difficulty: real, sin: real -> real, i: nat)
    requires d.section == Elevation && RowInRange(d.row(i)) && SineBounded(sin)
    ensures Abs(CurveAmount(d, difficulty, sin, i)) <= 3.0
  {
    UniformBounds(-1.0, 1.0, d.row(i).curve);
    var x := i as real * 0.3 + Uniform(0.0, TwoPi, d.phase);
    assert -1.0 <= sin(x) <= 1.0;
  }

  /** Width ranges per section for draws in range; the floor at 50 never binds then. */
  lemma WidthBounds(s: Section, r: RowDraws)
    requires RowInRange(r)
    ensures var w := RowWidth(s, r);
      && (s == Hairpin ==> 55.0 <= w <= 105.0)
      && (s == Straight ==> 85.0 <= w <= 145.0)
      && (s != Hairpin && s != Straight ==> 65.0 <= w <= 125.0)
  {
    UniformBounds(70.0, 90.0, r.baseWidth);
    UniformBounds(100.0, 130.0, r.baseWidth);
    UniformBounds(80.0, 110.0, r.baseWidth);
    UniformBounds(-15.0, 15.0, r.widthVariation);
  }

  /** A straight chunk wanders at most 0.8 per row from its start. */
  lemma {:induction false} StraightDrift(start: real, difficulty: real, d: ChunkDraws, sin: real -> real, k: nat)
    requires d.section == Straight && DrawsInRange(d) && SineBounded(sin)
    requires MinCenter <= start <= MaxCenter && k < ChunkHeight
    ensures Abs(CenterLine(start, difficulty, d, sin)[k] - start) <= 0.8 * (k + 1) as real
  {
    var r := CenterLine(start, difficulty, d, sin);
    CenterSteps(start, difficulty, d, sin, k);
    CurveBounds(d, 0.0, sin, k);
    assert CurveAmount(d, difficulty, sin, k) == CurveAmount(d, 0.0, sin, k);
    if k == 0 {
      ClampIsNonExpanding(start + CurveAmount(d, difficulty, sin, 0), start, MinCenter, MaxCenter);
    } else {
      StraightDrift(start, difficulty, d, sin, k - 1);
    }
  }

  /** get_last_center */
  function LastCenter(c: Chunk): (r: real)
    ensures |c.centerLine| > 0 ==> r == c.centerLine[|c.centerLine| - 1]
    ensures |c.centerLine| == 0 ==> r == DefaultCenter
  {
    if |c.centerLine| > 0 then c.centerLine[|c.centerLine| - 1] else DefaultCenter
  }

  /** is_on_track(x, y) of a chunk: y in the chunk's rows and x within half the row's width
      of its centre. */
  predicate IsOnTrack(c: Chunk, x: real, y: real)
    requires Parallel(c)
  {
    var localY := y - c.yOffset as real;
    if localY < 0.0 || localY >= ChunkHeight as real then false
    else
      var row := localY.Floor;
      if row < 0 || row >= |c.centerLine| then false
      else Abs(x - c.centerLine[row]) <= c.trackWidth[row] / 2.0
  }

  /** get_surface_at_position of a chunk: "grass" off the track, then bands by the share
      of the row width between the point and the centre. */
  function SurfaceAtPosition(c: Chunk, x: real, y: real): (s: string)
    requires Parallel(c)
    ensures s == "grass" || s == "tarmac" || s == "gravel" || s == "dirt"
    ensures s == "grass" <==> !IsOnTrack(c, x, y)
  {
    if !IsOnTrack(c, x, y) then "grass"
    else
      var row := (y - c.yOffset as real).Floor;
      if row < 0 || row >= |c.centerLine| then "grass"
      else
        var distanceFromCenter := Abs(x - c.centerLine[row]);
        var width := c.trackWidth[row];
        if distanceFromCenter < width * 0.3 then "tarmac"
        else if distanceFromCenter < width * 0.4 then "gravel"
        else "dirt"
  }

  /** On the track, the label depends only on how far the point is from the row's centre
      as a share of the row's width. */
  lemma SurfaceBands(c: Chunk, x: real, y: real)
    requires WellFormed(c) && IsOnTrack(c, x, y)
    ensures var row := (y - c.yOffset as real).Floor;
      && 0 <= row < ChunkHeight
      && var d := Abs(x - c.centerLine[row]);
      var w := c.trackWidth[row];
      && (SurfaceAtPosition(c, x, y) == "tarmac" <==> d < w * 0.3)
      && (SurfaceAtPosition(c, x, y) == "gravel" <==> w * 0.3 <= d < w * 0.4)
      && (SurfaceAtPosition(c, x, y) == "dirt" <==> w * 0.4 <= d)
  {
  }

  /** The first centre of a new chunk is the clamped start plus row 0's delta, where the
      start is the screen midpoint 400 without a predecessor and prev_center otherwise. */
  lemma ChunkStartsFromSeed(yOffset: int, difficulty: real, prevCenter: Option<real>, d: ChunkDraws, sin: real -> real)
    ensures var c := MakeChunk(yOffset, difficulty, prevCenter, d, sin);
      var start := if prevCenter.None? then 400.0 else prevCenter.value;
      c.centerLine[0] == Clamp(start + CurveAmount(d, difficulty, sin, 0), MinCenter, MaxCenter)
  {
    CenterSteps(StartCenter(prevCenter), difficulty, d, sin, 0);
  }

  /** get_tile_at(tile_x, tile_y): GRASS outside the chunk's rows or off the band,
      else the row's surface code. */
  function TileAt(c: Chunk, tileX: int, tileY: int): (t: int)
    requires Parallel(c)
    ensures tileY < c.yOffset || tileY >= c.yOffset + ChunkHeight ==> t == Grass
  {
    if tileY < c.yOffset || tileY >= c.yOffset + ChunkHeight then Grass
    else
      var localY := tileY - c.yOffset;
      if localY < 0 || localY >= |c.centerLine| then Grass
      else
        var worldX := tileX * TileSize;
        if Abs(worldX as real - c.centerLine[localY]) <= c.trackWidth[localY] / 2.0 then
          (if localY < |c.surfaceTypes| then c.surfaceTypes[localY] else Tarmac)
        else Grass
  }

  /** On a generated chunk the tile query and the point query agree: a tile is non-grass
      exactly when its left edge lies on the track, and then it carries its row's code. */
  lemma TileAgreesWithIsOnTrack(c: Chunk, tileX: int, tileY: int)
    requires WellFormed(c)
    ensures TileAt(c, tileX, tileY) != Grass <==> IsOnTrack(c, (tileX * TileSize) as real, tileY as real)
    ensures TileAt(c, tileX, tileY) != Grass ==>
      c.yOffset <= tileY < c.yOffset + ChunkHeight && TileAt(c, tileX, tileY) == c.surfaceTypes[tileY - c.yOffset]
  {
    var localY := tileY as real - c.yOffset as real;
    assert localY == (tileY - c.yOffset) as real;
    assert localY.Floor == tileY - c.yOffset;
    if c.yOffset <= tileY < c.yOffset + ChunkHeight {
      assert IsRowSurface(c.surfaceTypes[tileY - c.yOffset]);
    }
  }
}
