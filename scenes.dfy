/**
 * The five 3D scenes and what one animation frame does to each of them.
 *
 * Each scene object holds the state its frame callback changes: rotation
 * angles of the objects it spins, the position buffer it moves, and for the
 * background also the pointer offset, the camera position and its aspect
 * ratio.  Building the meshes, materials and renderer, and drawing, are not
 * part of this model; a frame is one call of the scene's Animate.
 */
module Scenes {
  import Buffers
  import Pointer

  /** Points in the background starfield. */
  const BackgroundParticles: nat := 3000
  /** Points in the particle project preview. */
  const PreviewParticles: nat := 1500
  /** Vertices of the wave preview's 20 x 20 segment plane. */
  const WaveVertices: nat := 21 * 21

  /** The background clock runs at 1/10000 of the millisecond clock. */
  const BackgroundTimeScale: real := 0.0001
  /** The wave clock runs at 1/1000 of the millisecond clock. */
  const WaveTimeScale: real := 0.001

  /** Starting distance of the background camera from the origin. */
  const BackgroundCameraZ: real := 50.0

  /** The rotation of a scene object, in radians per axis.  Angles only
      accumulate; they are never wrapped. */
  class Object3D {
    var rotX: real
    var rotY: real
    var rotZ: real

    constructor ()
      ensures rotX == 0.0 && rotY == 0.0 && rotZ == 0.0
    {
      rotX, rotY, rotZ := 0.0, 0.0, 0.0;
    }
  }

  /** The full-window scene: a drifting starfield, a camera that follows the
      pointer, and the pointer offset the mouse handler keeps. */
  class Background {
    var mouseX: real
    var mouseY: real
    var cameraX: real
    var cameraY: real
    var cameraZ: real
    var aspect: real
    const system: Object3D
    const positions: array<real>

    /** The buffer holds the starfield's points, and every star's y lies in
        [-75, 75]: true of the random start and kept by every frame. */
    ghost predicate Valid()
      reads this, positions
    {
      positions.Length == BackgroundParticles * 3 &&
      Buffers.YWithin(positions[..], Buffers.StarfieldBound)
    }

    /** The scene as first built: pointer at the centre, camera on the z axis
        50 units out, aspect ratio from the window. */
    constructor (initial: seq<real>, innerWidth: real, innerHeight: real)
      requires |initial| == BackgroundParticles * 3
      requires Buffers.YWithin(initial, Buffers.StarfieldBound)
      requires innerHeight > 0.0
      ensures Valid() && fresh(positions) && fresh(system)
      ensures positions[..] == initial
      ensures mouseX == 0.0 && mouseY == 0.0
      ensures cameraX == 0.0 && cameraY == 0.0 && cameraZ == BackgroundCameraZ
      ensures aspect == innerWidth / innerHeight
      ensures system.rotX == 0.0 && system.rotY == 0.0 && system.rotZ == 0.0
    {
      positions := new real[|initial|](i requires 0 <= i < |initial| => initial[i]);
      system := new Object3D();
      mouseX, mouseY := 0.0, 0.0;
      cameraX, cameraY, cameraZ := 0.0, 0.0, BackgroundCameraZ;
      aspect := innerWidth / innerHeight;
    }

    /** The mouse-move handler: stores the pointer as an offset in [-1, 1]
        per axis, and touches nothing else. */
    method HandleMouseMove(clientX: real, clientY: real, innerWidth: real, innerHeight: real)
      requires innerWidth > 0.0 && innerHeight > 0.0
      modifies this`mouseX, this`mouseY
      ensures mouseX == Pointer.NormalizeX(clientX, innerWidth)
      ensures mouseY == Pointer.NormalizeY(clientY, innerHeight)
    {
      mouseX := (clientX / innerWidth) * 2.0 - 1.0;
      mouseY := -(clientY / innerHeight) * 2.0 + 1.0;
    }

    /** The resize handler: the camera's aspect ratio becomes the window's. */
    method HandleResize(innerWidth: real, innerHeight: real)
      requires innerHeight > 0.0
      modifies this`aspect
      ensures aspect == innerWidth / innerHeight
    {
      aspect := innerWidth / innerHeight;
    }

    /** One frame at millisecond clock `now`.  The starfield's rotation is
        set from the clock (not accumulated), the stars drift and wrap (so
        every y stays in [-75, 75]), and
        the camera eases toward three times the pointer offset.  The pointer
        offset, the camera's z and the aspect ratio are left as they are. */
    method Animate(now: real, sin: real -> real)
      requires Valid()
      modifies system`rotX, system`rotY, positions, this`cameraX, this`cameraY
      ensures Valid()
      ensures system.rotX == now * BackgroundTimeScale * 0.2
      ensures system.rotY == now * BackgroundTimeScale * 0.3
      ensures positions[..] == Buffers.StarfieldTick(old(positions[..]), now * BackgroundTimeScale, sin)
      ensures cameraX == Pointer.Ease(old(cameraX), mouseX)
      ensures cameraY == Pointer.Ease(old(cameraY), mouseY)
    {
      var time := now * BackgroundTimeScale;
      system.rotX := time * 0.2;
      system.rotY := time * 0.3;
      ghost var before := positions[..];
      Buffers.DriftStarfield(positions, time, sin);
      Buffers.StarfieldTickKeepsBounds(before, time, sin);
      cameraX := cameraX + (mouseX * 3.0 - cameraX) * 0.05;
      cameraY := cameraY + (mouseY * 3.0 - cameraY) * 0.05;
    }
  }

  /** The particle project preview: a small field that spins and drifts. */
  class ParticlePreview {
    const system: Object3D
    const positions: array<real>

    /** The buffer holds the field's points, and every y lies in [-10, 10]:
        true of the random start and kept by every frame. */
    ghost predicate Valid()
      reads this, positions
    {
      positions.Length == PreviewParticles * 3 &&
      Buffers.YWithin(positions[..], Buffers.FieldBound)
    }

    constructor (initial: seq<real>)
      requires |initial| == PreviewParticles * 3
      requires Buffers.YWithin(initial, Buffers.FieldBound)
      ensures Valid() && fresh(positions) && fresh(system)
      ensures positions[..] == initial
      ensures system.rotX == 0.0 && system.rotY == 0.0 && system.rotZ == 0.0
    {
      positions := new real[|initial|](i requires 0 <= i < |initial| => initial[i]);
      system := new Object3D();
    }

    /** One frame: the field turns by fixed steps on x and y, and every point
        falls and wraps within [-10, 10] while x and z stay put. */
    method Animate()
      requires Valid()
      modifies system`rotX, system`rotY, positions
      ensures Valid()
      ensures system.rotX == old(system.rotX) + 0.002
      ensures system.rotY == old(system.rotY) + 0.003
      ensures positions[..] == Buffers.FieldTick(old(positions[..]))
    {
      system.rotX := system.rotX + 0.002;
      system.rotY := system.rotY + 0.003;
      ghost var before := positions[..];
      Buffers.DriftField(positions);
      Buffers.FieldTickKeepsBounds(before);
    }
  }

  /** The crystal project preview: one wireframe solid that spins. */
  class CrystalPreview {
    const mesh: Object3D

    constructor ()
      ensures fresh(mesh)
      ensures mesh.rotX == 0.0 && mesh.rotY == 0.0 && mesh.rotZ == 0.0
    {
      mesh := new Object3D();
    }

    /** One frame: x and y turn by 0.01 each; nothing else changes. */
    method Animate()
      modifies mesh`rotX, mesh`rotY
      ensures mesh.rotX == old(mesh.rotX) + 0.01
      ensures mesh.rotY == old(mesh.rotY) + 0.01
    {
      mesh.rotX := mesh.rotX + 0.01;
      mesh.rotY := mesh.rotY + 0.01;
    }
  }

  /** The wave project preview: a plane grid whose heights follow a moving
      sine-cosine field. */
  class WavePreview {
    const positions: array<real>

    ghost predicate Valid()
      reads this
    {
      positions.Length == WaveVertices * 3
    }

    constructor (grid: seq<real>)
      requires |grid| == WaveVertices * 3
      ensures Valid() && fresh(positions)
      ensures positions[..] == grid
    {
      positions := new real[|grid|](i requires 0 <= i < |grid| => grid[i]);
    }

    /** One frame at millisecond clock `now`: every height is recomputed from
        its own x, y and the clock; x and y never move, so a second frame at
        the same clock reading would change nothing. */
    method Animate(now: real, sin: real -> real, cos: real -> real)
      requires Valid()
      modifies positions
      ensures Valid()
      ensures positions[..] == Buffers.WaveTick(old(positions[..]), now * WaveTimeScale, sin, cos)
      ensures Buffers.WaveTick(positions[..], now * WaveTimeScale, sin, cos) == positions[..]
    {
      var time := now * WaveTimeScale;
      ghost var before := positions[..];
      Buffers.DeformWave(positions, time, sin, cos);
      Buffers.WaveTickIdempotent(before, time, sin, cos);
    }
  }

  /** How fast the profile shape at position `index` turns per frame on x and
      on y: each shape one step faster than the one before it. */
  function ProfileRate(index: nat): real
  {
    0.01 * (index as real + 1.0)
  }

  /** The profile preview: three distinct solids sharing one loop. */
  class ProfilePreview {
    const shapes: seq<Object3D>

    ghost predicate Valid()
      reads this
    {
      |shapes| == 3 &&
      forall i, j :: 0 <= i < j < |shapes| ==> shapes[i] != shapes[j]
    }

    constructor ()
      ensures Valid()
      ensures forall k :: 0 <= k < |shapes| ==> fresh(shapes[k])
      ensures forall k :: 0 <= k < |shapes| ==>
        shapes[k].rotX == 0.0 && shapes[k].rotY == 0.0 && shapes[k].rotZ == 0.0
    {
      var dodecahedron := new Object3D();
      var octahedron := new Object3D();
      var torusKnot := new Object3D();
      shapes := [dodecahedron, octahedron, torusKnot];
    }

    /** One frame: shape k turns by 0.01 * (k + 1) on x and on y; its z and
        every other shape's angles are untouched by its step. */
    method Animate()
      requires Valid()
      modifies shapes
      ensures forall k :: 0 <= k < |shapes| ==>
        shapes[k].rotX == old(shapes[k].rotX) + ProfileRate(k) &&
        shapes[k].rotY == old(shapes[k].rotY) + ProfileRate(k) &&
        shapes[k].rotZ == old(shapes[k].rotZ)
    {
      var index := 0;
      while index < |shapes|
        invariant 0 <= index <= |shapes|
        invariant forall k :: 0 <= k < index ==>
          shapes[k].rotX == old(shapes[k].rotX) + ProfileRate(k) &&
          shapes[k].rotY == old(shapes[k].rotY) + ProfileRate(k) &&
          shapes[k].rotZ == old(shapes[k].rotZ)
        invariant forall k :: index <= k < |shapes| ==>
          shapes[k].rotX == old(shapes[k].rotX) &&
          shapes[k].rotY == old(shapes[k].rotY) &&
          shapes[k].rotZ == old(shapes[k].rotZ)
      {
        var shape := shapes[index];
        shape.rotX := shape.rotX + 0.01 * (index as real + 1.0);
        shape.rotY := shape.rotY + 0.01 * (index as real + 1.0);
        index := index + 1;
      }
    }
  }
}
