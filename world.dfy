/**
 * The level of `src/game/World.ts`: a floor, twenty wall sections on
 * alternating sides of a hallway, an end platform and nine lights.  The
 * world keeps its meshes and their bounding boxes in two index-aligned
 * lists; the box list is the object the player's collision test reads.
 */
module WorldLayout {
  import opened Geometry

  /** The box meshes the world builds: centre, box size and material. */
  datatype Mesh = Mesh(position: Vec3, size: Vec3, color: int, shininess: int, specular: int)

  datatype Light =
    | Ambient(color: int, intensity: real)
    | Directional(color: int, intensity: real, position: Vec3)
    | PointLight(color: int, intensity: real, distance: real, position: Vec3)

  /** What `scene.add` receives, in order. */
  datatype SceneItem = MeshItem(mesh: Mesh) | LightItem(light: Light)

  const WallHeight: int := 12
  const WallLength: int := 15
  const WallSpacing: int := 8
  const NumSections: int := 20
  const HallwayWidth: int := 16

  /**
   * `Box3.setFromObject` of an unrotated box mesh: the box of the mesh's
   * size around its centre.
   */
  function BoxOf(m: Mesh): (b: Box)
    ensures m.size.x >= 0.0 && m.size.y >= 0.0 && m.size.z >= 0.0 ==> WellFormed(b) && Contains(b, m.position)
  {
    FromCenterAndSize(m.position, m.size)
  }

  /** The boxes of a list of meshes, index by index. */
  function BoxesOf(ms: seq<Mesh>): (r: seq<Box>)
    ensures |r| == |ms|
    ensures forall k :: 0 <= k < |ms| ==> r[k] == BoxOf(ms[k])
  {
    seq(|ms|, k requires 0 <= k < |ms| => BoxOf(ms[k]))
  }

  lemma BoxesOfAppend(ms: seq<Mesh>, m: Mesh)
    ensures BoxesOf(ms + [m]) == BoxesOf(ms) + [BoxOf(m)]
  {
    assert forall k :: 0 <= k < |ms| + 1 ==> BoxesOf(ms + [m])[k] == (BoxesOf(ms) + [BoxOf(m)])[k];
  }

  /** Each box is the bounding box of the mesh at the same index. */
  predicate Aligned(objects: seq<Mesh>, boxes: seq<Box>) {
    |objects| == |boxes| && forall k :: 0 <= k < |objects| ==> boxes[k] == BoxOf(objects[k])
  }

  /** Appending aligned lists to aligned lists keeps them aligned. */
  lemma AlignedAppend(o1: seq<Mesh>, b1: seq<Box>, o2: seq<Mesh>, b2: seq<Box>)
    requires Aligned(o2, b2)
    ensures Aligned(o1 + o2, b1 + b2) <==> Aligned(o1, b1)
  {
    if Aligned(o1 + o2, b1 + b2) {
      assert |o1| == |b1|;
      forall k | 0 <= k < |o1| ensures b1[k] == BoxOf(o1[k]) {
        assert (b1 + b2)[k] == BoxOf((o1 + o2)[k]);
      }
    }
  }

  /** On aligned lists, recomputing every box changes nothing. */
  lemma RecomputeAligned(objects: seq<Mesh>, boxes: seq<Box>)
    requires Aligned(objects, boxes)
    ensures BoxesOf(objects[..|boxes|]) == boxes
  {
  }

  lemma AlignedIffBoxesOf(objects: seq<Mesh>, boxes: seq<Box>)
    ensures Aligned(objects, boxes) <==> boxes == BoxesOf(objects)
  {
  }

  function MeshItems(ms: seq<Mesh>): (r: seq<SceneItem>)
    ensures |r| == |ms|
    ensures forall k :: 0 <= k < |ms| ==> r[k] == MeshItem(ms[k])
  {
    seq(|ms|, k requires 0 <= k < |ms| => MeshItem(ms[k]))
  }

  function LightItems(ls: seq<Light>): (r: seq<SceneItem>)
    ensures |r| == |ls|
    ensures forall k :: 0 <= k < |ls| ==> r[k] == LightItem(ls[k])
  {
    seq(|ls|, k requires 0 <= k < |ls| => LightItem(ls[k]))
  }

  // ---------------------------------------------------------------------
  // The layout

  /** A 40 by 200 slab, one unit thick, centred half a unit down. */
  const Floor: Mesh := Mesh(Vec3(0.0, -0.5, 0.0), Vec3(40.0, 1.0, 200.0), 0x808080, 30, 0x404040)

  /** What `createWall` builds for a position, size and colour. */
  function WallMeshAt(position: Vec3, size: Vec3, color: int): Mesh {
    Mesh(position, size, color, 30, 0x404040)
  }

  /** What `createPlatform` builds for a position, size and colour. */
  function PlatformMeshAt(position: Vec3, size: Vec3, color: int): Mesh {
    Mesh(position, size, color, 50, 0x505050)
  }

  const Platform: Mesh := PlatformMeshAt(Vec3(0.0, 4.0, 60.0), Vec3(10.0, 1.0, 10.0), 0x8a8a8a)

  /** The z of wall section `i`: from -90 forward in steps of `wallSpacing`. */
  function WallZ(i: int): int {
    -90 + i * WallSpacing
  }

  /** The x of wall section `i`: right of the hallway for even `i`, left for odd. */
  function WallX(i: int): int {
    if i % 2 == 0 then HallwayWidth / 2 - 1 else -HallwayWidth / 2 + 1
  }

  /** The colour number wall section `i` is given. */
  function WallColor(i: int): int {
    0x4a4a4a + i * 0x0a0a0a
  }

  function WallMesh(i: int): Mesh {
    WallMeshAt(Vec3(WallX(i) as real, WallHeight as real / 2.0, WallZ(i) as real),
               Vec3(1.0, WallHeight as real, WallLength as real),
               WallColor(i))
  }

  /** The first `n` wall sections, in loop order. */
  function Walls(n: nat): (r: seq<Mesh>)
    ensures |r| == n
    ensures forall i :: 0 <= i < n ==> r[i] == WallMesh(i)
  {
    seq(n, i => WallMesh(i))
  }

  /** The meshes `createWorld` builds, in the order it builds them. */
  function Layout(): seq<Mesh> {
    [Floor] + Walls(NumSections) + [Platform]
  }

  function DirectionalAt(i: int): Light {
    Directional(0xffffff, 0.6, Vec3(0.0, 20.0, (-60 + i * 60) as real))
  }

  function PointAt(i: int): Light {
    PointLight(0xffffff, 0.4, 40.0, Vec3(0.0, 10.0, (-80 + i * 40) as real))
  }

  /** The lights `createWorld` adds after the meshes. */
  function Lights(): seq<Light> {
    [Ambient(0xffffff, 0.6)] + seq(3, i => DirectionalAt(i)) + seq(5, i => PointAt(i))
  }

  /** Everything `createWorld` adds to the scene, in order. */
  function SceneLayout(): seq<SceneItem> {
    MeshItems(Layout()) + LightItems(Lights())
  }

  // ---------------------------------------------------------------------
  // Properties of the layout

  /**
   * The collider order: the floor first, then the walls in loop order, then
   * the platform, 22 in all.
   */
  lemma LayoutOrder()
    ensures |Layout()| == 22
    ensures Layout()[0] == Floor
    ensures forall i :: 0 <= i < NumSections ==> Layout()[1 + i] == WallMesh(i)
    ensures Layout()[21] == Platform
  {
  }

  /**
   * Wall section `i` stands 12 high on the floor, one unit thick and 15 long,
   * centred on x = 7 for even `i` and x = -7 for odd `i`, at z = -90 + 8i.
   */
  lemma WallGeometry(i: int)
    ensures WallX(i) == (if i % 2 == 0 then 7 else -7)
    ensures WallZ(i) == -90 + 8 * i
    ensures BoxOf(WallMesh(i)).min == Vec3(WallX(i) as real - 0.5, 0.0, WallZ(i) as real - 7.5)
    ensures BoxOf(WallMesh(i)).max == Vec3(WallX(i) as real + 0.5, 12.0, WallZ(i) as real + 7.5)
    ensures WallMesh(i).color == 0x4a4a4a + i * 0x0a0a0a
  {
  }

  /** Consecutive sections are on opposite sides, 8 apart in z. */
  lemma WallsAlternate(i: int)
    ensures WallX(i + 1) == -WallX(i)
    ensures WallZ(i + 1) == WallZ(i) + WallSpacing
  {
  }

  /** The floor's top face is at y = 0. */
  lemma FloorTopAtZero()
    ensures BoxOf(Floor).max.y == 0.0 && BoxOf(Floor).min.y == -1.0
    ensures BoxOf(Floor).min.x == -20.0 && BoxOf(Floor).max.x == 20.0
    ensures BoxOf(Floor).min.z == -100.0 && BoxOf(Floor).max.z == 100.0
  {
  }

  /** One ambient light, then three directional lights, then five point lights. */
  lemma LightKinds()
    ensures |Lights()| == 9
    ensures Lights()[0].Ambient?
    ensures forall k :: 1 <= k < 4 ==> Lights()[k] == DirectionalAt(k - 1)
    ensures forall k :: 4 <= k < 9 ==> Lights()[k] == PointAt(k - 4)
  {
  }

  // ---------------------------------------------------------------------
  // Colours

  /**
   * The colour three.js keeps for a colour number: red, green and blue are
   * its bits 16-23, 8-15 and 0-7, so anything from bit 24 up is lost.
   */
  function RenderedColor(hex: int): (c: int)
    requires hex >= 0
    ensures 0 <= c <= 0xffffff
    ensures hex <= 0xffffff ==> c == hex
  {
    hex % 0x1000000
  }

  /**
   * As written, the colour number of the last wall section carries out of
   * 24 bits: the gradient that rises to 0xfefefe at section 18 drops to the
   * near-black 0x090908 at section 19.
   */
  lemma LastWallColorWraps()
    ensures WallColor(18) == 0xfefefe
    ensures WallColor(19) > 0xffffff
    ensures RenderedColor(WallColor(19)) == 0x090908
    ensures RenderedColor(WallColor(19)) < RenderedColor(WallColor(18))
  {
  }

  /**
   * The intended gradient: each channel starts at 0x4a and rises by 0x0a per
   * section, stopping at 0xff.
   */
  function CorrectedWallColor(i: nat): (c: int)
    ensures 0x4a4a4a <= c <= 0xffffff
  {
    var channel := if 0x4a + i * 0x0a <= 0xff then 0x4a + i * 0x0a else 0xff;
    channel * 0x010101
  }

  /**
   * The corrected colours agree with the written ones as long as those fit
   * in 24 bits, and never get darker along the hallway.
   */
  lemma CorrectedWallColorGradient(i: nat, j: nat)
    ensures i <= 18 ==> CorrectedWallColor(i) == WallColor(i)
    ensures i <= j ==> CorrectedWallColor(i) <= CorrectedWallColor(j)
  {
  }

  // ---------------------------------------------------------------------
  // The world object

  /** A `Box3[]` array: an object that whoever holds it sees change. */
  class ColliderList {
    var boxes: seq<Box>

    constructor ()
      ensures boxes == []
    {
      boxes := [];
    }
  }

  class World {
    /** What has been added to the scene, in order. */
    var scene: seq<SceneItem>
    var objects: seq<Mesh>
    const colliders: ColliderList

    ghost predicate Valid()
      reads this, colliders
    {
      Aligned(objects, colliders.boxes)
    }

    /** An empty world, then `createWorld`. */
    constructor ()
      ensures scene == SceneLayout()
      ensures objects == Layout()
      ensures colliders.boxes == BoxesOf(Layout())
      ensures fresh(colliders)
      ensures Valid()
    {
      scene := [];
      objects := [];
      colliders := new ColliderList();
      new;
      CreateWorld();
      AlignedIffBoxesOf(objects, colliders.boxes);
    }

    /**
     * The floor, the wall loop, the platform and the lights, each mesh
     * appended to `objects` and its box to `colliders` together.
     */
    method CreateWorld()
      modifies this, colliders
      ensures scene == old(scene) + SceneLayout()
      ensures objects == old(objects) + Layout()
      ensures colliders.boxes == old(colliders.boxes) + BoxesOf(Layout())
      ensures old(Valid()) ==> Valid()
    {
      CreateMeshes();
      AddLights();
      AlignedAppend(old(objects), old(colliders.boxes), Layout(), BoxesOf(Layout()));
    }

    /** The floor, the wall loop and the platform. */
    method CreateMeshes()
      modifies this, colliders
      ensures scene == old(scene) + MeshItems(Layout())
      ensures objects == old(objects) + Layout()
      ensures colliders.boxes == old(colliders.boxes) + BoxesOf(Layout())
    {
      ghost var s0, o0, b0 := scene, objects, colliders.boxes;
      scene := scene + [MeshItem(Floor)];
      objects := objects + [Floor];
      colliders.boxes := colliders.boxes + [BoxOf(Floor)];
      CreateWalls();
      CreatePlatform(Vec3(0.0, 4.0, 60.0), Vec3(10.0, 1.0, 10.0), 0x8a8a8a);
      ghost var w := Walls(NumSections);
      LayoutItems();
      Regroup(o0, [Floor], w, [Platform]);
      Regroup(b0, [BoxOf(Floor)], BoxesOf(w), [BoxOf(Platform)]);
      Regroup(s0, [MeshItem(Floor)], MeshItems(w), [MeshItem(Platform)]);
    }

    /** The wall loop of `createWorld`. */
    method CreateWalls()
      modifies this, colliders
      ensures scene == old(scene) + MeshItems(Walls(NumSections))
      ensures objects == old(objects) + Walls(NumSections)
      ensures colliders.boxes == old(colliders.boxes) + BoxesOf(Walls(NumSections))
    {
      for i := 0 to NumSections
        invariant scene == old(scene) + MeshItems(Walls(i))
        invariant objects == old(objects) + Walls(i)
        invariant colliders.boxes == old(colliders.boxes) + BoxesOf(Walls(i))
      {
        var zPosition := -90 + i * WallSpacing;
        var xPosition := if i % 2 == 0 then HallwayWidth / 2 - 1 else -HallwayWidth / 2 + 1;
        CreateWall(Vec3(xPosition as real, WallHeight as real / 2.0, zPosition as real),
                   Vec3(1.0, WallHeight as real, WallLength as real),
                   0x4a4a4a + i * 0x0a0a0a);
        WallsGrow(i);
      }
    }

    /** The ambient light and the two light loops of `createWorld`. */
    method AddLights()
      modifies this`scene
      ensures scene == old(scene) + LightItems(Lights())
    {
      scene := scene + [LightItem(Ambient(0xffffff, 0.6))];
      for i := 0 to 3
        invariant scene == old(scene) + LightItems([Ambient(0xffffff, 0.6)] + seq(i, k => DirectionalAt(k)))
      {
        scene := scene + [LightItem(Directional(0xffffff, 0.6, Vec3(0.0, 20.0, (-60 + i * 60) as real)))];
        LightsGrow([Ambient(0xffffff, 0.6)], seq(i, k => DirectionalAt(k)), DirectionalAt(i));
        assert seq(i, k => DirectionalAt(k)) + [DirectionalAt(i)] == seq(i + 1, k => DirectionalAt(k));
      }
      for i := 0 to 5
        invariant scene == old(scene)
                  + LightItems([Ambient(0xffffff, 0.6)] + seq(3, k => DirectionalAt(k)) + seq(i, k => PointAt(k)))
      {
        scene := scene + [LightItem(PointLight(0xffffff, 0.4, 40.0, Vec3(0.0, 10.0, (-80 + i * 40) as real)))];
        LightsGrow([Ambient(0xffffff, 0.6)] + seq(3, k => DirectionalAt(k)), seq(i, k => PointAt(k)), PointAt(i));
        assert seq(i, k => PointAt(k)) + [PointAt(i)] == seq(i + 1, k => PointAt(k));
      }
    }

    /** `createWall` with its default rotation of 0. */
    method CreateWall(position: Vec3, size: Vec3, color: int)
      modifies this, colliders
      ensures scene == old(scene) + [MeshItem(WallMeshAt(position, size, color))]
      ensures objects == old(objects) + [WallMeshAt(position, size, color)]
      ensures colliders.boxes == old(colliders.boxes) + [BoxOf(WallMeshAt(position, size, color))]
      ensures old(Valid()) ==> Valid()
    {
      var wall := Mesh(position, size, color, 30, 0x404040);
      scene := scene + [MeshItem(wall)];
      objects := objects + [wall];
      colliders.boxes := colliders.boxes + [FromCenterAndSize(wall.position, wall.size)];
    }

    method CreatePlatform(position: Vec3, size: Vec3, color: int)
      modifies this, colliders
      ensures scene == old(scene) + [MeshItem(PlatformMeshAt(position, size, color))]
      ensures objects == old(objects) + [PlatformMeshAt(position, size, color)]
      ensures colliders.boxes == old(colliders.boxes) + [BoxOf(PlatformMeshAt(position, size, color))]
      ensures old(Valid()) ==> Valid()
    {
      var platform := Mesh(position, size, color, 50, 0x505050);
      scene := scene + [MeshItem(platform)];
      objects := objects + [platform];
      colliders.boxes := colliders.boxes + [FromCenterAndSize(platform.position, platform.size)];
    }

    /** The live list itself, not a copy: later `update`s show through it. */
    method GetColliders() returns (c: ColliderList)
      ensures c == colliders
    {
      c := colliders;
    }

    /**
     * Recomputes every collider from the mesh at its index; nothing else
     * changes.  Indexing `objects` past its end would fail, so there must be a
     * mesh for every collider.
     */
    method Update()
      requires |colliders.boxes| <= |objects|
      modifies colliders
      ensures colliders.boxes == BoxesOf(objects[..|old(colliders.boxes)|])
      ensures |objects| == |colliders.boxes| ==> Valid()
    {
      for index := 0 to |colliders.boxes|
        invariant |colliders.boxes| == |old(colliders.boxes)|
        invariant forall k :: 0 <= k < index ==> colliders.boxes[k] == BoxOf(objects[k])
      {
        colliders.boxes := colliders.boxes[index := FromCenterAndSize(objects[index].position, objects[index].size)];
      }
    }
  }

  lemma WallsGrow(i: nat)
    ensures Walls(i) + [WallMesh(i)] == Walls(i + 1)
    ensures MeshItems(Walls(i)) + [MeshItem(WallMesh(i))] == MeshItems(Walls(i + 1))
    ensures BoxesOf(Walls(i)) + [BoxOf(WallMesh(i))] == BoxesOf(Walls(i + 1))
  {
    assert Walls(i) + [WallMesh(i)] == Walls(i + 1);
    BoxesOfAppend(Walls(i), WallMesh(i));
    MeshItemsAppend(Walls(i), WallMesh(i));
  }

  lemma MeshItemsAppend(ms: seq<Mesh>, m: Mesh)
    ensures MeshItems(ms + [m]) == MeshItems(ms) + [MeshItem(m)]
  {
    assert forall k :: 0 <= k < |ms| + 1 ==> MeshItems(ms + [m])[k] == (MeshItems(ms) + [MeshItem(m)])[k];
  }

  lemma LightsGrow(prefix: seq<Light>, ls: seq<Light>, l: Light)
    ensures LightItems(prefix + ls) + [LightItem(l)] == LightItems(prefix + ls + [l])
  {
    var a := prefix + ls;
    assert forall k :: 0 <= k < |a| + 1 ==> LightItems(a + [l])[k] == (LightItems(a) + [LightItem(l)])[k];
  }

  lemma Regroup<T>(a: seq<T>, b: seq<T>, c: seq<T>, d: seq<T>)
    ensures a + b + c + d == a + (b + c + d)
  {
  }

  /** The meshes, items and boxes of the floor, the walls and the platform, concatenated. */
  lemma LayoutItems()
    ensures MeshItems(Layout()) == [MeshItem(Floor)] + MeshItems(Walls(NumSections)) + [MeshItem(Platform)]
    ensures BoxesOf(Layout()) == [BoxOf(Floor)] + BoxesOf(Walls(NumSections)) + [BoxOf(Platform)]
  {
    var w := Walls(NumSections);
    assert MeshItems(Layout()) == [MeshItem(Floor)] + MeshItems(w) + [MeshItem(Platform)];
    assert BoxesOf(Layout()) == [BoxOf(Floor)] + BoxesOf(w) + [BoxOf(Platform)];
  }
}
