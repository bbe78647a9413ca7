/** EndlessTrackConfig: tile geometry, the difficulty rate and the tile codes. */
module TrackConfig {

  const TileSize: int := 16
  /** Rows per chunk (EndlessTrackConfig.CHUNK_HEIGHT, also AdvancedTrackChunk.height). */
  const ChunkHeight: int := 20
  const TrackWidthMin: int := 4
  const TrackWidthMax: int := 8
  const DifficultyIncreaseRate: real := 0.0008

  const Grass: int := 0
  const Gravel: int := 1
  const Dirt: int := 2
  const Tarmac: int := 3
  const Tree: int := 4
  const Rock: int := 5
  const Water: int := 6
  const Mud: int := 7

  /** The codes the generator emits for a track row. */
  predicate IsRowSurface(t: int) { t == Gravel || t == Dirt || t == Tarmac }

  /** int(v // TILE_SIZE) for a world coordinate v: Python floors, also for negative v. */
  function TileCoord(v: real): (t: int)
    ensures t as real * 16.0 <= v < (t + 1) as real * 16.0
  {
    (v / 16.0).Floor
  }
}
