/**
 * One frame of display(): the view and projection uniforms and the thirteen
 * draw calls, each with the vertex array bound at that moment, its point
 * count and its model matrix. GL state changes other than these are left out.
 */
module Render {
  import opened Maths
  import opened Controls
  import opened Meshes
  import opened SceneGraph

  /** One glDrawArrays call: bound vertex array, point count, model uniform. */
  datatype Draw = Draw(vao: nat, count: nat, model: Mat)

  /** What one frame uploads and draws. */
  datatype Frame = Frame(proj: Mat, view: Mat, draws: seq<Draw>)

  const WIDTH: nat := 800
  const HEIGHT: nat := 600

  /** The projection: 45 degrees vertical field of view, window aspect, near 0.1, far 1000. */
  const PROJECTION: Mat := Perspective(45.0, (WIDTH as real) / (HEIGHT as real), 0.1, 1000.0)

  /** The camera: the identity translated by the root translation, pulled back 50 units. */
  function View(p: Params): Mat {
    Translate(Identity, Vec3(0.0 + p.rootTransX, 0.0 + p.rootTransY, -50.0 + p.rootTransZ))
  }

  /**
   * The frame the scene graph prescribes: node DRAW_ORDER[i] is drawn i-th,
   * with its own mesh bound, that mesh's point count and its model matrix.
   */
  ghost predicate IsFrameOf(f: Frame, p: Params, meshes: seq<ModelData>) {
    && |meshes| == MESH_COUNT
    && f.proj == PROJECTION
    && f.view == View(p)
    && |f.draws| == |DRAW_ORDER|
    && forall i :: 0 <= i < |f.draws| ==> f.draws[i] == NodeDraw(DRAW_ORDER[i], p, meshes)
  }

  /** The draw the scene graph prescribes for node n. */
  ghost function NodeDraw(n: Node, p: Params, meshes: seq<ModelData>): Draw
    requires |meshes| == MESH_COUNT
  {
    Draw(MeshOf(n), meshes[MeshOf(n)].pointCount, World(n, p))
  }

  /** The prescribed draws, listed node by node in draw order. */
  lemma DrawsInOrder(draws: seq<Draw>, p: Params, meshes: seq<ModelData>)
    requires |meshes| == MESH_COUNT && |draws| == |DRAW_ORDER|
    requires draws[0] == NodeDraw(Root, p, meshes) && draws[1] == NodeDraw(Arm1, p, meshes)
    requires draws[2] == NodeDraw(Arm2, p, meshes) && draws[3] == NodeDraw(Arm3, p, meshes)
    requires draws[4] == NodeDraw(Arm4, p, meshes) && draws[5] == NodeDraw(Torus, p, meshes)
    requires draws[6] == NodeDraw(Wrist, p, meshes) && draws[7] == NodeDraw(Finger1, p, meshes)
    requires draws[8] == NodeDraw(Finger2, p, meshes) && draws[9] == NodeDraw(Finger3, p, meshes)
    requires draws[10] == NodeDraw(Fingertip1, p, meshes)
    requires draws[11] == NodeDraw(Fingertip2, p, meshes)
    requires draws[12] == NodeDraw(Fingertip3, p, meshes)
    ensures forall i :: 0 <= i < |draws| ==> draws[i] == NodeDraw(DRAW_ORDER[i], p, meshes)
  {
    forall i | 0 <= i < |draws| ensures draws[i] == NodeDraw(DRAW_ORDER[i], p, meshes) {
      assert i in {0, 1, 2, 3, 4, 5, 6, 7, 8, 9, 10, 11, 12};
    }
  }

  /**
   * display(): the straight-line computation of main.cpp. Each node's model
   * matrix is built from the identity by its own translate and rotate calls
   * and then multiplied onto its parent's; each draw records the vertex
   * array bound at that point and the point count of the mesh record named
   * at the call.
   */
  function Display(p: Params, meshes: seq<ModelData>): Frame
    requires |meshes| == MESH_COUNT
  {
    var view := Translate(Identity, Vec3(0.0 + p.rootTransX, 0.0 + p.rootTransY, -50.0 + p.rootTransZ));
    var root := RotateZDeg(RotateYDeg(RotateXDeg(Identity, p.rootRotX), p.rootRotY), p.rootRotZ);
    var armChild1 := Mul(root, Translate(Identity, Vec3(0.0, 3.0, 0.0)));
    var armChild2 := Mul(armChild1, Translate(Identity, Vec3(0.0, 3.0, 0.0)));
    var armChild3 := Mul(armChild2, RotateZDeg(Translate(Identity, Vec3(0.0, 3.0, 0.0)), p.rotateZ));
    var armChild4 := Mul(armChild3, Translate(Identity, Vec3(0.0, 3.0, 0.0)));
    var torus := Mul(armChild4, Translate(Identity, Vec3(0.0, 2.0, 0.0)));
    var wrist := Mul(torus, Translate(RotateXDeg(Translate(Identity, Vec3(0.0, 0.0, 0.0)), p.rotateWrist),
                                      Vec3(0.0, 1.0, 0.0)));
    var finger1 := Mul(wrist, RotateXDeg(Translate(Identity, Vec3(0.0, 1.0, 0.0)), p.rotateFinger));
    var finger2 := Mul(wrist, Translate(Identity, Vec3(-0.5, 1.0, 0.0)));
    var finger3 := Mul(wrist, Translate(Identity, Vec3(0.5, 1.0, 0.0)));
    var fingertip1 := Mul(finger1, Translate(Identity, Vec3(0.0, 2.0, 0.0)));
    var fingertip2 := Mul(finger2, Translate(Identity, Vec3(0.0, 2.0, 0.0)));
    var fingertip3 := Mul(finger3, Translate(Identity, Vec3(0.0, 2.0, 0.0)));
    var draws := [
      Draw(0, meshes[0].pointCount, root),
      Draw(0, meshes[0].pointCount, armChild1),
      Draw(0, meshes[0].pointCount, armChild2),
      Draw(0, meshes[0].pointCount, armChild3),
      Draw(0, meshes[0].pointCount, armChild4),
      Draw(4, meshes[4].pointCount, torus),
      Draw(1, meshes[1].pointCount, wrist),
      Draw(2, meshes[2].pointCount, finger1),
      Draw(2, meshes[2].pointCount, finger2),
      Draw(2, meshes[2].pointCount, finger3),
      Draw(3, meshes[3].pointCount, fingertip1),
      Draw(3, meshes[3].pointCount, fingertip2),
      Draw(3, meshes[3].pointCount, fingertip3)];
    Frame(PROJECTION, view, draws)
  }

  /** The root, the four arm segments, the torus and the wrist. */
  lemma ArmDraws(p: Params, meshes: seq<ModelData>)
    requires |meshes| == MESH_COUNT
    ensures var d := Display(p, meshes).draws;
      && |d| == |DRAW_ORDER|
      && d[0] == NodeDraw(Root, p, meshes) && d[1] == NodeDraw(Arm1, p, meshes)
      && d[2] == NodeDraw(Arm2, p, meshes) && d[3] == NodeDraw(Arm3, p, meshes)
      && d[4] == NodeDraw(Arm4, p, meshes) && d[5] == NodeDraw(Torus, p, meshes)
      && d[6] == NodeDraw(Wrist, p, meshes)
  {
    var d := Display(p, meshes).draws;
    assert d[0].model == World(Root, p);
    assert d[1].model == World(Arm1, p);
    assert d[2].model == World(Arm2, p);
    assert d[3].model == World(Arm3, p);
    assert d[4].model == World(Arm4, p);
    assert d[5].model == World(Torus, p);
  }

  /** The three fingers and their tips, hanging off the wrist. */
  lemma HandDraws(p: Params, meshes: seq<ModelData>)
    requires |meshes| == MESH_COUNT
    ensures var d := Display(p, meshes).draws;
      && |d| == |DRAW_ORDER|
      && d[7] == NodeDraw(Finger1, p, meshes) && d[8] == NodeDraw(Finger2, p, meshes)
      && d[9] == NodeDraw(Finger3, p, meshes) && d[10] == NodeDraw(Fingertip1, p, meshes)
      && d[11] == NodeDraw(Fingertip2, p, meshes) && d[12] == NodeDraw(Fingertip3, p, meshes)
  {
    ArmDraws(p, meshes);
    var d := Display(p, meshes).draws;
    assert d[7].model == World(Finger1, p);
    assert d[8].model == World(Finger2, p);
    assert d[9].model == World(Finger3, p);
  }

  /** display() draws exactly the frame the scene graph prescribes. */
  lemma DisplayFollowsGraph(p: Params, meshes: seq<ModelData>)
    requires |meshes| == MESH_COUNT
    ensures IsFrameOf(Display(p, meshes), p, meshes)
  {
    ArmDraws(p, meshes);
    HandDraws(p, meshes);
    DrawsInOrder(Display(p, meshes).draws, p, meshes);
  }

  /**
   * In the frame, every non-root node is drawn after its parent, with the
   * parent's uploaded model matrix times its own local recipe.
   */
  lemma FrameComposesParent(p: Params, meshes: seq<ModelData>, n: Node)
    requires |meshes| == MESH_COUNT && Parent(n).Some?
    ensures var f := Display(p, meshes); var q := Parent(n).value;
      && IndexOf(q) < IndexOf(n)
      && f.draws[IndexOf(n)].model == Mul(f.draws[IndexOf(q)].model, Local(n, p))
  {
    DisplayFollowsGraph(p, meshes);
    ParentDrawnFirst(n);
  }

  /** The vertex arrays bound for the thirteen draws, in order. */
  function BoundSequence(draws: seq<Draw>): (r: seq<nat>)
    ensures |r| == |draws| && forall i :: 0 <= i < |draws| ==> r[i] == draws[i].vao
  {
    if draws == [] then [] else BoundSequence(draws[..|draws| - 1]) + [draws[|draws| - 1].vao]
  }

  /**
   * Mesh binding: root and arm segments use mesh 0, then the torus mesh 4,
   * the wrist mesh 1, the fingers mesh 2 and the fingertips mesh 3; every
   * draw's point count is that of the mesh whose vertex array is bound.
   */
  lemma FrameMeshBinding(p: Params, meshes: seq<ModelData>)
    requires |meshes| == MESH_COUNT
    ensures var f := Display(p, meshes);
      && BoundSequence(f.draws) == MESHES_IN_ORDER
      && forall i :: 0 <= i < |f.draws| ==>
           f.draws[i].vao < |meshes| && f.draws[i].count == meshes[f.draws[i].vao].pointCount
  {
    DisplayFollowsGraph(p, meshes);
    var f := Display(p, meshes);
    var b := BoundSequence(f.draws);
    forall i | 0 <= i < 13
      ensures b[i] == MESHES_IN_ORDER[i]
    {
      assert b[i] == MeshOf(DRAW_ORDER[i]);
      MeshInOrder(i);
    }
  }

  const MESHES_IN_ORDER: seq<nat> := [0, 0, 0, 0, 0, 4, 1, 2, 2, 2, 3, 3, 3]

  /** The mesh of the i-th node drawn. */
  lemma MeshInOrder(i: nat)
    requires i < |DRAW_ORDER|
    ensures MeshOf(DRAW_ORDER[i]) == MESHES_IN_ORDER[i]
  {
    assert i in {0, 1, 2, 3, 4, 5, 6, 7, 8, 9, 10, 11, 12};
  }

  /** A mesh that failed to load (point count 0) is drawn with count 0 wherever it is bound. */
  lemma EmptyMeshDrawsNothing(p: Params, meshes: seq<ModelData>, k: nat)
    requires |meshes| == MESH_COUNT && k < MESH_COUNT && meshes[k] == EMPTY_MODEL
    ensures forall i :: 0 <= i < |Display(p, meshes).draws| && Display(p, meshes).draws[i].vao == k ==>
      Display(p, meshes).draws[i].count == 0
  {
    DisplayFollowsGraph(p, meshes);
  }

  /**
   * After a key press, a node's draw is unchanged unless the adjusted
   * parameter reaches its model matrix, and the view is unchanged unless a
   * root translation was adjusted. The projection never changes.
   */
  lemma KeyPressRedraws(p: Params, meshes: seq<ModelData>, key: char)
    requires |meshes| == MESH_COUNT && key in KEYS
    ensures var before := Display(p, meshes);
      var after := Display(Apply(p, key), meshes);
      var q := BindingOf(key).value.param;
      && after.proj == before.proj
      && (q !in {RootTransX, RootTransY, RootTransZ} ==> after.view == before.view)
      && |after.draws| == |before.draws|
      && forall i :: 0 <= i < |before.draws| && q !in WorldReads(DRAW_ORDER[i]) ==>
           after.draws[i] == before.draws[i]
  {
    var p' := Apply(p, key);
    var q := BindingOf(key).value.param;
    KeyChangesExactlyOne(p, key);
    DisplayFollowsGraph(p, meshes);
    DisplayFollowsGraph(p', meshes);
    forall i | 0 <= i < |DRAW_ORDER| && q !in WorldReads(DRAW_ORDER[i])
      ensures World(DRAW_ORDER[i], p') == World(DRAW_ORDER[i], p)
    {
      WorldReadsOnly(DRAW_ORDER[i], p', p);
    }
    if q !in {RootTransX, RootTransY, RootTransZ} {
      assert p'.Get(RootTransX) == p.Get(RootTransX);
      assert p'.Get(RootTransY) == p.Get(RootTransY);
      assert p'.Get(RootTransZ) == p.Get(RootTransZ);
    }
  }

  /** The translation keys move only the camera: every model matrix stays put. */
  lemma TranslationKeysMoveOnlyView(p: Params, meshes: seq<ModelData>, key: char)
    requires |meshes| == MESH_COUNT && key in {'d', 'a', 'w', 's', 'e', 'q'}
    ensures Display(Apply(p, key), meshes).draws == Display(p, meshes).draws
    ensures Display(Apply(p, key), meshes).view != Display(p, meshes).view
  {
    KeyPressRedraws(p, meshes, key);
    var q := BindingOf(key).value.param;
    forall i | 0 <= i < |DRAW_ORDER| ensures q !in WorldReads(DRAW_ORDER[i]) {
      UnreadParams(DRAW_ORDER[i]);
    }
    KeyChangesExactlyOne(p, key);
    DisplayFollowsGraph(p, meshes);
    DisplayFollowsGraph(Apply(p, key), meshes);
  }
}
