/** World queries: the distance from a point to a building's bounding box,
    the terrain height (a height-map lookup raised by mountain cones), and
    the drift of clouds. World generation is random and is not modelled:
    the height map, buildings, mountains and clouds are given. */
module WorldModel {
  import opened Numerics

  /** A box standing on the ground: centre (x, 0, z), extent
      width x height x depth. */
  datatype Building = Building(position: Vec3, width: real, height: real, depth: real)

  /** A cone-shaped mountain centred at (x, 0, z). */
  datatype Mountain = Mountain(position: Vec3, radius: real, height: real)

  /** A cloud: its position, its size and the speed at which it drifts
      along x. */
  datatype Cloud = Cloud(position: Vec3, size: real, speed: real)

  const TERRAIN_SIZE: int := 100
  const TERRAIN_SCALE: real := 50.0
  const CLOUD_WRAP: real := 3500.0

  function Max3(a: real, b: real, c: real): real {
    Max(Max(a, b), c)
  }

  // ---------------------------------------------------------------------
  // Building collision distance
  // ---------------------------------------------------------------------

  /** Distance along one axis from p to the interval [lo, hi]. */
  function AxisGap(lo: real, hi: real, p: real): (g: real)
    ensures 0.0 <= g
    ensures g == 0.0 <==> lo <= p <= hi
    ensures p < lo <= hi ==> g == lo - p
    ensures lo <= hi && hi < p ==> g == p - hi
  {
    Max3(lo - p, 0.0, p - hi)
  }

  /** On a non-empty interval the point is below lo or above hi, never
      both. */
  lemma AtMostOneSideOutside(lo: real, hi: real, p: real)
    requires lo <= hi
    ensures !(0.0 < lo - p && 0.0 < p - hi)
  {
  }

  /** The closed bounding box of a building. */
  predicate InBox(p: Vec3, b: Building) {
    && b.position.x - b.width / 2.0 <= p.x <= b.position.x + b.width / 2.0
    && 0.0 <= p.y <= b.height
    && b.position.z - b.depth / 2.0 <= p.z <= b.position.z + b.depth / 2.0
  }

  function GapX(p: Vec3, b: Building): real {
    AxisGap(b.position.x - b.width / 2.0, b.position.x + b.width / 2.0, p.x)
  }

  function GapY(p: Vec3, b: Building): real {
    AxisGap(0.0, b.height, p.y)
  }

  function GapZ(p: Vec3, b: Building): real {
    AxisGap(b.position.z - b.depth / 2.0, b.position.z + b.depth / 2.0, p.z)
  }

  /** The squared shortest distance from p to the box. */
  function BuildingGapSq(p: Vec3, b: Building): real {
    Square(GapX(p, b)) + Square(GapY(p, b)) + Square(GapZ(p, b))
  }

  /** check_building_collision: the shortest distance from the aircraft
      to a building's box. */
  function BuildingDistance(m: MathLib, p: Vec3, b: Building): (d: real)
    requires m.Valid()
    ensures 0.0 <= d
    ensures d * d == BuildingGapSq(p, b)
  {
    GapSqPositiveIffOutside(p, b);
    m.sqrt(BuildingGapSq(p, b))
  }

  /** The squared distance is positive exactly outside the closed box
      (and zero inside it). */
  lemma GapSqPositiveIffOutside(p: Vec3, b: Building)
    ensures 0.0 <= BuildingGapSq(p, b)
    ensures 0.0 < BuildingGapSq(p, b) <==> !InBox(p, b)
  {
    SquareBounds(GapX(p, b));
    SquareBounds(GapY(p, b));
    SquareBounds(GapZ(p, b));
    if InBox(p, b) {
      assert GapX(p, b) == 0.0 && GapY(p, b) == 0.0 && GapZ(p, b) == 0.0;
      assert Square(0.0) == 0.0;
    }
  }

  /** The collision distance is zero exactly when the aircraft is inside
      the building's box. */
  lemma DistanceZeroIffInBox(m: MathLib, p: Vec3, b: Building)
    requires m.Valid()
    ensures BuildingDistance(m, p, b) == 0.0 <==> InBox(p, b)
  {
    GapSqPositiveIffOutside(p, b);
    SqrtZeroIff(m, BuildingGapSq(p, b));
  }

  // ---------------------------------------------------------------------
  // Terrain height
  // ---------------------------------------------------------------------

  /** The grid index of a coordinate: Python's int() truncates toward
      zero, so coordinates just below the grid's edge still map to
      index 0. */
  function GridIndex(coordinate: real): (i: int)
    ensures 0.0 <= coordinate / TERRAIN_SCALE + 50.0 ==> i == (coordinate / TERRAIN_SCALE + 50.0).Floor
    ensures -1.0 < coordinate / TERRAIN_SCALE + 50.0 < 1.0 ==> i == 0
  {
    Trunc(coordinate / TERRAIN_SCALE + (TERRAIN_SIZE as real) / 2.0)
  }

  /** Just below the grid's lower edge the truncated index is 0 where a
      floor would give -1, so the height map, not zero, is used there. */
  lemma GridIndexTruncatesTowardZero(coordinate: real)
    requires -2550.0 < coordinate < -2500.0
    ensures GridIndex(coordinate) == 0
    ensures (coordinate / TERRAIN_SCALE + 50.0).Floor == -1
  {
  }

  predicate InGrid(i: int) {
    0 <= i < TERRAIN_SIZE
  }

  predicate WellFormedHeightMap(heightMap: seq<seq<real>>) {
    |heightMap| == TERRAIN_SIZE && forall row :: row in heightMap ==> |row| == TERRAIN_SIZE
  }

  /** The height-map value under (x, z), or 0 outside the grid. */
  function BaseHeight(heightMap: seq<seq<real>>, x: real, z: real): (h: real)
    requires WellFormedHeightMap(heightMap)
    ensures InGrid(GridIndex(x)) && InGrid(GridIndex(z)) ==> h == heightMap[GridIndex(x)][GridIndex(z)]
    ensures !(InGrid(GridIndex(x)) && InGrid(GridIndex(z))) ==> h == 0.0
  {
    var gx, gz := GridIndex(x), GridIndex(z);
    if 0 <= gx < TERRAIN_SIZE && 0 <= gz < TERRAIN_SIZE then
      assert heightMap[gx] in heightMap;
      heightMap[gx][gz]
    else 0.0
  }

  /** The horizontal distance from (x, z) to a mountain's centre. */
  function MountainDistance(m: MathLib, mountain: Mountain, x: real, z: real): real
    requires m.Valid()
  {
    m.sqrt((x - mountain.position.x) * (x - mountain.position.x)
           + (z - mountain.position.z) * (z - mountain.position.z))
  }

  /** A mountain's cone height at (x, z), if (x, z) lies strictly inside
      its radius. */
  function MountainContribution(m: MathLib, mountain: Mountain, x: real, z: real): Option<real>
    requires m.Valid()
  {
    var dist := MountainDistance(m, mountain, x, z);
    if dist < mountain.radius then Some(mountain.height * (1.0 - dist / mountain.radius))
    else None
  }

  /** A contributing mountain lies within its radius, and a positive-height
      cone contributes a height in (0, height]. */
  lemma ContributionBounds(m: MathLib, mountain: Mountain, x: real, z: real)
    requires m.Valid()
    ensures var c := MountainContribution(m, mountain, x, z);
      c.Some? ==> 0.0 < mountain.radius && MountainDistance(m, mountain, x, z) < mountain.radius
    ensures var c := MountainContribution(m, mountain, x, z);
      c.Some? && 0.0 < mountain.height ==> 0.0 < c.value <= mountain.height
  {
    var dist := MountainDistance(m, mountain, x, z);
    var dx, dz := x - mountain.position.x, z - mountain.position.z;
    SquareSigns(dx);
    SquareSigns(dz);
    assert 0.0 <= dist;
    if dist < mountain.radius {
      var r := mountain.radius;
      assert 0.0 <= dist / r < 1.0 by {
        QuotientSign(dist / r, r);
        assert dist / r * r == dist;
        QuotientAtMostOneStrict(dist, r);
      }
      if 0.0 < mountain.height {
        ScaleUnit(mountain.height, 1.0 - dist / r);
        ProductPositive(mountain.height, 1.0 - dist / r);
      }
    }
  }

  lemma QuotientAtMostOneStrict(a: real, b: real)
    requires 0.0 < b && a < b
    ensures a / b < 1.0
  {
    QuotientSign(a / b - 1.0, b);
    assert (a / b - 1.0) * b == a / b * b - b;
    assert a / b * b == a;
  }

  /** Raise a height by one mountain's cone, as the source's max does. */
  function RaiseBy(height: real, contribution: Option<real>): real {
    if contribution.Some? then Max(height, contribution.value) else height
  }

  /** The terrain-height fold: the running maximum over the mountains in
      order, starting from the given height. */
  function TerrainFold(m: MathLib, height: real, mountains: seq<Mountain>, x: real, z: real): real
    requires m.Valid()
    decreases |mountains|
  {
    if |mountains| == 0 then height
    else TerrainFold(m, RaiseBy(height, MountainContribution(m, mountains[0], x, z)), mountains[1..], x, z)
  }

  /** The fold never falls below its starting height. */
  lemma {:induction false} FoldAtLeastStart(m: MathLib, height: real, mountains: seq<Mountain>, x: real, z: real)
    requires m.Valid()
    ensures height <= TerrainFold(m, height, mountains, x, z)
    decreases |mountains|
  {
    if |mountains| > 0 {
      var next := RaiseBy(height, MountainContribution(m, mountains[0], x, z));
      FoldAtLeastStart(m, next, mountains[1..], x, z);
    }
  }

  /** The fold is at least every contributing mountain's cone height. */
  lemma {:induction false} FoldAtLeastEachCone(m: MathLib, height: real, mountains: seq<Mountain>, x: real, z: real)
    requires m.Valid()
    ensures forall i :: 0 <= i < |mountains| && MountainContribution(m, mountains[i], x, z).Some? ==>
      MountainContribution(m, mountains[i], x, z).value <= TerrainFold(m, height, mountains, x, z)
    decreases |mountains|
  {
    if |mountains| > 0 {
      var next := RaiseBy(height, MountainContribution(m, mountains[0], x, z));
      FoldAtLeastStart(m, next, mountains[1..], x, z);
      FoldAtLeastEachCone(m, next, mountains[1..], x, z);
      forall i | 0 <= i < |mountains| && MountainContribution(m, mountains[i], x, z).Some?
        ensures MountainContribution(m, mountains[i], x, z).value <= TerrainFold(m, height, mountains, x, z)
      {
        if i > 0 {
          assert mountains[i] == mountains[1..][i - 1];
        }
      }
    }
  }

  /** The fold's value is attained: it is the starting height or one
      contributing mountain's cone height. */
  lemma {:induction false} FoldAttained(m: MathLib, height: real, mountains: seq<Mountain>, x: real, z: real)
    requires m.Valid()
    ensures var h := TerrainFold(m, height, mountains, x, z);
      h == height || exists i :: 0 <= i < |mountains| && MountainContribution(m, mountains[i], x, z) == Some(h)
    decreases |mountains|
  {
    if |mountains| > 0 {
      var c := MountainContribution(m, mountains[0], x, z);
      var next := RaiseBy(height, c);
      var h := TerrainFold(m, height, mountains, x, z);
      FoldAttained(m, next, mountains[1..], x, z);
      if h != height {
        if h == next {
          assert c == Some(h);
        } else {
          var i :| 0 <= i < |mountains[1..]| && MountainContribution(m, mountains[1..][i], x, z) == Some(h);
          assert mountains[1..][i] == mountains[i + 1];
        }
      }
    }
  }

  // ---------------------------------------------------------------------
  // The world object
  // ---------------------------------------------------------------------

  /** Where a cloud is after drifting for dt: moved by speed * dt along x
      and sent back to x = -3500 once past x = 3500. */
  function DriftCloud(cloud: Cloud, dt: real): (c: Cloud)
    ensures c.position.x <= CLOUD_WRAP
    ensures c.position.y == cloud.position.y && c.position.z == cloud.position.z
    ensures c.size == cloud.size && c.speed == cloud.speed
    ensures cloud.position.x + cloud.speed * dt <= CLOUD_WRAP ==> c.position.x == cloud.position.x + cloud.speed * dt
    ensures CLOUD_WRAP < cloud.position.x + cloud.speed * dt ==> c.position.x == -CLOUD_WRAP
  {
    var x := cloud.position.x + cloud.speed * dt;
    cloud.(position := cloud.position.(x := if x > CLOUD_WRAP then -CLOUD_WRAP else x))
  }

  /** Clouds drifting forward stay within [-3500, 3500] along x. */
  lemma DriftKeepsCloudInBand(cloud: Cloud, dt: real)
    requires -CLOUD_WRAP <= cloud.position.x && 0.0 <= cloud.speed && 0.0 <= dt
    ensures -CLOUD_WRAP <= DriftCloud(cloud, dt).position.x <= CLOUD_WRAP
  {
    ProductNonNegative(cloud.speed, dt);
  }

  class World {
    const math: MathLib
    const heightMap: seq<seq<real>>
    const buildings: seq<Building>
    const mountains: seq<Mountain>
    var clouds: seq<Cloud>

    ghost predicate Valid()
      reads this
    {
      math.Valid() && WellFormedHeightMap(heightMap)
    }

    /** The generated world, given as inputs. */
    constructor (math: MathLib, heightMap: seq<seq<real>>, buildings: seq<Building>,
                 mountains: seq<Mountain>, clouds: seq<Cloud>)
      requires math.Valid() && WellFormedHeightMap(heightMap)
      ensures Valid()
      ensures this.math == math && this.heightMap == heightMap && this.buildings == buildings
      ensures this.mountains == mountains && this.clouds == clouds
    {
      this.math := math;
      this.heightMap := heightMap;
      this.buildings := buildings;
      this.mountains := mountains;
      this.clouds := clouds;
    }

    /** get_terrain_height: the height-map base, raised to the highest
        mountain cone covering (x, z). */
    method TerrainHeight(x: real, z: real) returns (height: real)
      requires Valid()
      ensures height == TerrainFold(math, BaseHeight(heightMap, x, z), mountains, x, z)
    {
      height := BaseHeight(heightMap, x, z);
      var i := 0;
      while i < |mountains|
        invariant 0 <= i <= |mountains|
        invariant TerrainFold(math, height, mountains[i..], x, z)
               == TerrainFold(math, BaseHeight(heightMap, x, z), mountains, x, z)
      {
        assert mountains[i..][0] == mountains[i] && mountains[i..][1..] == mountains[i + 1..];
        height := RaiseByMountain(height, mountains[i], x, z);
        i := i + 1;
      }
    }

    /** One pass of the mountain loop: inside the mountain's radius the
        height is raised to the cone's height there, if that is higher. */
    method RaiseByMountain(height: real, mountain: Mountain, x: real, z: real) returns (raised: real)
      requires Valid()
      ensures raised == RaiseBy(height, MountainContribution(math, mountain, x, z))
      ensures height <= raised
    {
      raised := height;
      var dist := MountainDistance(math, mountain, x, z);
      if dist < mountain.radius {
        ContributionBounds(math, mountain, x, z);
        var mountainHeight := mountain.height * (1.0 - dist / mountain.radius);
        raised := Max(height, mountainHeight);
      }
    }

    /** Moves every cloud by its own drift; buildings, mountains and the
        terrain do not change. */
    method Update(dt: real, aircraftPosition: Vec3)
      modifies this`clouds
      ensures |clouds| == |old(clouds)|
      ensures forall i :: 0 <= i < |clouds| ==> clouds[i] == DriftCloud(old(clouds[i]), dt)
      ensures forall i :: 0 <= i < |clouds| ==> clouds[i].position.x <= CLOUD_WRAP
    {
      var i := 0;
      while i < |clouds|
        invariant 0 <= i <= |clouds| == |old(clouds)|
        invariant forall j :: 0 <= j < i ==> clouds[j] == DriftCloud(old(clouds[j]), dt)
        invariant forall j :: i <= j < |clouds| ==> clouds[j] == old(clouds[j])
      {
        var cloud := clouds[i];
        var x := cloud.position.x + cloud.speed * dt;
        if x > CLOUD_WRAP {
          x := -CLOUD_WRAP;
        }
        clouds := clouds[i := cloud.(position := cloud.position.(x := x))];
        i := i + 1;
      }
    }
  }

  /** The terrain height is at least the grid-or-zero base and at least
      every mountain cone covering the point, and it is one of them. */
  lemma TerrainHeightIsMaximum(world: World, x: real, z: real)
    requires world.Valid()
    ensures var base := BaseHeight(world.heightMap, x, z);
      var h := TerrainFold(world.math, base, world.mountains, x, z);
      && base <= h
      && (forall i :: 0 <= i < |world.mountains| && MountainContribution(world.math, world.mountains[i], x, z).Some? ==>
            MountainContribution(world.math, world.mountains[i], x, z).value <= h)
      && (h == base ||
          exists i :: 0 <= i < |world.mountains| && MountainContribution(world.math, world.mountains[i], x, z) == Some(h))
  {
    var base := BaseHeight(world.heightMap, x, z);
    FoldAtLeastStart(world.math, base, world.mountains, x, z);
    FoldAtLeastEachCone(world.math, base, world.mountains, x, z);
    FoldAttained(world.math, base, world.mountains, x, z);
  }
}
