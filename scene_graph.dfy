/**
 * The articulated hand as a declarative scene graph: the thirteen nodes
 * that display() draws, each node's parent, its mesh, its local transform
 * recipe and the live parameters that recipe reads. Render.Display is
 * proved to compute exactly what this graph prescribes.
 */
module SceneGraph {
  import opened Wrappers
  import opened Maths
  import opened Controls

  datatype Node =
    | Root | Arm1 | Arm2 | Arm3 | Arm4 | Torus | Wrist
    | Finger1 | Finger2 | Finger3 | Fingertip1 | Fingertip2 | Fingertip3

  /** The order in which display() issues its draws. */
  const DRAW_ORDER: seq<Node> :=
    [Root, Arm1, Arm2, Arm3, Arm4, Torus, Wrist,
     Finger1, Finger2, Finger3, Fingertip1, Fingertip2, Fingertip3]

  /** The number of meshes (and vertex array objects) the renderer loads. */
  const MESH_COUNT: nat := 5

  /** Position of a node in DRAW_ORDER. */
  function IndexOf(n: Node): (i: nat)
    ensures i < |DRAW_ORDER| && DRAW_ORDER[i] == n
  {
    match n
    case Root => 0
    case Arm1 => 1
    case Arm2 => 2
    case Arm3 => 3
    case Arm4 => 4
    case Torus => 5
    case Wrist => 6
    case Finger1 => 7
    case Finger2 => 8
    case Finger3 => 9
    case Fingertip1 => 10
    case Fingertip2 => 11
    case Fingertip3 => 12
  }

  /** The parent each node's model matrix is composed onto; the root has none. */
  function Parent(n: Node): Option<Node> {
    match n
    case Root => None
    case Arm1 => Some(Root)
    case Arm2 => Some(Arm1)
    case Arm3 => Some(Arm2)
    case Arm4 => Some(Arm3)
    case Torus => Some(Arm4)
    case Wrist => Some(Torus)
    case Finger1 => Some(Wrist)
    case Finger2 => Some(Wrist)
    case Finger3 => Some(Wrist)
    case Fingertip1 => Some(Finger1)
    case Fingertip2 => Some(Finger2)
    case Fingertip3 => Some(Finger3)
  }

  /**
   * The mesh drawn for a node: 0 the square (root and arm segments), 1 the
   * sphere (wrist), 2 the cylinder (fingers), 3 the cone (fingertips),
   * 4 the torus.
   */
  function MeshOf(n: Node): (k: nat)
    ensures k < MESH_COUNT
  {
    match n
    case Root => 0
    case Arm1 => 0
    case Arm2 => 0
    case Arm3 => 0
    case Arm4 => 0
    case Torus => 4
    case Wrist => 1
    case Finger1 => 2
    case Finger2 => 2
    case Finger3 => 2
    case Fingertip1 => 3
    case Fingertip2 => 3
    case Fingertip3 => 3
  }

  /** The local transform recipe of each node, as the library calls that build it. */
  function Local(n: Node, p: Params): Mat {
    match n
    case Root => RotateZDeg(RotateYDeg(RotateXDeg(Identity, p.rootRotX), p.rootRotY), p.rootRotZ)
    case Arm1 => Translate(Identity, Vec3(0.0, 3.0, 0.0))
    case Arm2 => Translate(Identity, Vec3(0.0, 3.0, 0.0))
    case Arm3 => RotateZDeg(Translate(Identity, Vec3(0.0, 3.0, 0.0)), p.rotateZ)
    case Arm4 => Translate(Identity, Vec3(0.0, 3.0, 0.0))
    case Torus => Translate(Identity, Vec3(0.0, 2.0, 0.0))
    case Wrist =>
      Translate(RotateXDeg(Translate(Identity, Vec3(0.0, 0.0, 0.0)), p.rotateWrist), Vec3(0.0, 1.0, 0.0))
    case Finger1 => RotateXDeg(Translate(Identity, Vec3(0.0, 1.0, 0.0)), p.rotateFinger)
    case Finger2 => Translate(Identity, Vec3(-0.5, 1.0, 0.0))
    case Finger3 => Translate(Identity, Vec3(0.5, 1.0, 0.0))
    case Fingertip1 => Translate(Identity, Vec3(0.0, 2.0, 0.0))
    case Fingertip2 => Translate(Identity, Vec3(0.0, 2.0, 0.0))
    case Fingertip3 => Translate(Identity, Vec3(0.0, 2.0, 0.0))
  }

  /** The live parameters a node's own recipe reads. */
  function Reads(n: Node): set<Param> {
    match n
    case Root => {RootRotX, RootRotY, RootRotZ}
    case Arm3 => {RotateZ}
    case Wrist => {RotateWrist}
    case Finger1 => {RotateFinger}
    case _ => {}
  }

  /** The model matrix of a node: its parent's model matrix times its local one. */
  function World(n: Node, p: Params): Mat
    decreases IndexOf(n)
  {
    match Parent(n)
    case None => Local(n, p)
    case Some(q) => Mul(World(q, p), Local(n, p))
  }

  /** The path from the root down to n, n included. */
  function Ancestors(n: Node): seq<Node>
    decreases IndexOf(n)
  {
    match Parent(n)
    case None => [n]
    case Some(q) => Ancestors(q) + [n]
  }

  /** The product of the local transforms along a path, composed left to right. */
  function Chain(path: seq<Node>, p: Params): Mat
    requires path != []
  {
    if |path| == 1 then Local(path[0], p)
    else Mul(Chain(path[..|path| - 1], p), Local(path[|path| - 1], p))
  }

  /** Every live parameter that reaches n's model matrix through its ancestors. */
  function WorldReads(n: Node): set<Param>
    decreases IndexOf(n)
  {
    match Parent(n)
    case None => Reads(n)
    case Some(q) => WorldReads(q) + Reads(n)
  }

  /** The draw order lists each of the thirteen nodes exactly once. */
  lemma DrawOrderIsPermutation()
    ensures |DRAW_ORDER| == 13
    ensures forall i, j :: 0 <= i < j < |DRAW_ORDER| ==> DRAW_ORDER[i] != DRAW_ORDER[j]
    ensures forall n :: DRAW_ORDER[IndexOf(n)] == n
  {
  }

  /** Every parent comes before its children in the draw order. */
  lemma ParentDrawnFirst(n: Node)
    requires Parent(n).Some?
    ensures IndexOf(Parent(n).value) < IndexOf(n)
  {
  }

  /** A model matrix is the left-to-right product of the recipes from the root down. */
  lemma {:induction false} WorldIsChain(n: Node, p: Params)
    ensures Ancestors(n) != [] && Ancestors(n)[0] == Root
    ensures World(n, p) == Chain(Ancestors(n), p)
    decreases IndexOf(n)
  {
    match Parent(n)
    case None =>
    case Some(q) =>
      WorldIsChain(q, p);
      var path := Ancestors(n);
      assert path[..|path| - 1] == Ancestors(q);
  }

  /** The arm chain down to the wrist, and each fingertip below its own finger. */
  lemma Hierarchy()
    ensures Ancestors(Wrist) == [Root, Arm1, Arm2, Arm3, Arm4, Torus, Wrist]
    ensures Ancestors(Fingertip1) == Ancestors(Wrist) + [Finger1, Fingertip1]
    ensures Ancestors(Fingertip2) == Ancestors(Wrist) + [Finger2, Fingertip2]
    ensures Ancestors(Fingertip3) == Ancestors(Wrist) + [Finger3, Fingertip3]
  {
    assert Ancestors(Arm1) == [Root, Arm1];
    assert Ancestors(Arm2) == [Root, Arm1, Arm2];
    assert Ancestors(Arm3) == [Root, Arm1, Arm2, Arm3];
    assert Ancestors(Arm4) == [Root, Arm1, Arm2, Arm3, Arm4];
    assert Ancestors(Torus) == [Root, Arm1, Arm2, Arm3, Arm4, Torus];
  }

  /** A recipe depends on the parameters in Reads and on nothing else. */
  lemma LocalReadsOnly(n: Node, p: Params, p': Params)
    requires forall q :: q in Reads(n) ==> p.Get(q) == p'.Get(q)
    ensures Local(n, p) == Local(n, p')
  {
    match n
    case Root =>
      assert p.Get(RootRotX) == p'.Get(RootRotX);
      assert p.Get(RootRotY) == p'.Get(RootRotY);
      assert p.Get(RootRotZ) == p'.Get(RootRotZ);
    case Arm3 => assert p.Get(RotateZ) == p'.Get(RotateZ);
    case Wrist => assert p.Get(RotateWrist) == p'.Get(RotateWrist);
    case Finger1 => assert p.Get(RotateFinger) == p'.Get(RotateFinger);
    case _ =>
  }

  /**
   * Conversely, every parameter in Reads does occur in the recipe: moving it
   * changes the recipe's call tree.
   */
  lemma RecipeUsesReads(n: Node, q: Param, p: Params)
    requires q in Reads(n)
    ensures Local(n, p.Set(q, p.Get(q) + 1.0)) != Local(n, p)
  {
  }

  /** A model matrix depends on the parameters in WorldReads and on nothing else. */
  lemma {:induction false} WorldReadsOnly(n: Node, p: Params, p': Params)
    requires forall q :: q in WorldReads(n) ==> p.Get(q) == p'.Get(q)
    ensures World(n, p) == World(n, p')
    decreases IndexOf(n)
  {
    LocalReadsOnly(n, p, p');
    match Parent(n)
    case None =>
    case Some(q) =>
      WorldReadsOnly(q, p, p');
  }

  /**
   * Conversely, every parameter read along the path from the root does
   * occur in the model matrix: moving it changes the matrix's call tree.
   */
  lemma {:induction false} WorldUsesReads(n: Node, q: Param, p: Params)
    requires q in WorldReads(n)
    ensures World(n, p.Set(q, p.Get(q) + 1.0)) != World(n, p)
    decreases IndexOf(n)
  {
    match Parent(n)
    case None => RecipeUsesReads(n, q, p);
    case Some(r) =>
      if q in Reads(n) {
        RecipeUsesReads(n, q, p);
      } else {
        WorldUsesReads(r, q, p);
      }
  }

  /** A recipe that does not read q is the same whatever value q holds. */
  lemma LocalIgnores(n: Node, q: Param, v: real, p: Params)
    requires q !in Reads(n)
    ensures Local(n, p.Set(q, v)) == Local(n, p)
  {
    var p' := p.Set(q, v);
    match n
    case Root =>
      assert p'.Get(RootRotX) == p.Get(RootRotX);
      assert p'.Get(RootRotY) == p.Get(RootRotY);
      assert p'.Get(RootRotZ) == p.Get(RootRotZ);
    case Arm3 => assert p'.Get(RotateZ) == p.Get(RotateZ);
    case Wrist => assert p'.Get(RotateWrist) == p.Get(RotateWrist);
    case Finger1 => assert p'.Get(RotateFinger) == p.Get(RotateFinger);
    case _ =>
  }

  /** A model matrix whose path does not read q is the same whatever value q holds. */
  lemma {:induction false} WorldIgnores(n: Node, q: Param, v: real, p: Params)
    requires q !in WorldReads(n)
    ensures World(n, p.Set(q, v)) == World(n, p)
    decreases IndexOf(n)
  {
    LocalIgnores(n, q, v, p);
    match Parent(n)
    case None =>
    case Some(r) => WorldIgnores(r, q, v, p);
  }

  /**
   * Moving parameter q by one unit changes node n's model matrix if and
   * only if q is read on the node's path.
   */
  lemma {:induction false} MovesIffReads(n: Node, q: Param, p: Params)
    ensures (World(n, p.Set(q, p.Get(q) + 1.0)) != World(n, p)) <==> q in WorldReads(n)
  {
    if q in WorldReads(n) {
      WorldUsesReads(n, q, p);
    } else {
      WorldIgnores(n, q, p.Get(q) + 1.0, p);
    }
  }

  /*
   * Which live parameter reaches which node's model matrix, one lemma per
   * parameter group, stated both of the read sets and of the matrices
   * (moving the parameter by one unit changes the matrix).
   */

  /** The root rotations reach every node. */
  lemma {:induction false} RootRotationsReachAll(n: Node, p: Params)
    ensures {RootRotX, RootRotY, RootRotZ} <= WorldReads(n)
    ensures World(n, p.Set(RootRotX, p.Get(RootRotX) + 1.0)) != World(n, p)
    ensures World(n, p.Set(RootRotY, p.Get(RootRotY) + 1.0)) != World(n, p)
    ensures World(n, p.Set(RootRotZ, p.Get(RootRotZ) + 1.0)) != World(n, p)
    decreases IndexOf(n)
  {
    MovesIffReads(n, RootRotX, p);
    MovesIffReads(n, RootRotY, p);
    MovesIffReads(n, RootRotZ, p);
    match Parent(n)
    case None =>
    case Some(r) => RootRotationsReachAll(r, p);
  }

  /** rotate_z reaches the third arm segment and everything drawn after it. */
  lemma ArmAngleReach(n: Node, p: Params)
    ensures RotateZ in WorldReads(n) <==> IndexOf(n) >= IndexOf(Arm3)
    ensures World(n, p.Set(RotateZ, p.Get(RotateZ) + 1.0)) != World(n, p) <==> IndexOf(n) >= IndexOf(Arm3)
  {
    MovesIffReads(n, RotateZ, p);
  }

  /** The wrist angle reaches the wrist and everything below it. */
  lemma WristAngleReach(n: Node, p: Params)
    ensures RotateWrist in WorldReads(n) <==> IndexOf(n) >= IndexOf(Wrist)
    ensures World(n, p.Set(RotateWrist, p.Get(RotateWrist) + 1.0)) != World(n, p) <==> IndexOf(n) >= IndexOf(Wrist)
  {
    MovesIffReads(n, RotateWrist, p);
  }

  /** The finger angle reaches only the first finger and its tip. */
  lemma FingerAngleReach(n: Node, p: Params)
    ensures RotateFinger in WorldReads(n) <==> n == Finger1 || n == Fingertip1
    ensures World(n, p.Set(RotateFinger, p.Get(RotateFinger) + 1.0)) != World(n, p) <==> n == Finger1 || n == Fingertip1
  {
    MovesIffReads(n, RotateFinger, p);
  }

  /** The root translations and the x and y timer angles reach no model matrix. */
  lemma {:induction false} UnreadParams(n: Node)
    ensures WorldReads(n) !! {RootTransX, RootTransY, RootTransZ, RotateX, RotateY}
    decreases IndexOf(n)
  {
    match Parent(n)
    case None =>
    case Some(q) => UnreadParams(q);
  }

  /** Hence setting any of them to any value leaves every model matrix as it was. */
  lemma UnreadParamsMoveNothing(n: Node, q: Param, v: real, p: Params)
    requires q in {RootTransX, RootTransY, RootTransZ, RotateX, RotateY}
    ensures World(n, p.Set(q, v)) == World(n, p)
  {
    UnreadParams(n);
    WorldIgnores(n, q, v, p);
  }
}
