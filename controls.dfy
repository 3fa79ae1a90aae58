/**
 * The renderer's live animation parameters and the keyboard commands that
 * adjust them (the global joint and root variables of main.cpp and its
 * keypress callback).
 */
module Controls {
  import opened Wrappers

  /** The eleven global scalars the renderer keeps between frames. */
  datatype Param =
    | RotateX | RotateY | RotateZ
    | RootTransX | RootTransY | RootTransZ
    | RootRotX | RootRotY | RootRotZ
    | RotateFinger | RotateWrist

  /** A snapshot of every parameter, all in degrees or world units. */
  datatype Params = Params(
    rotateX: real, rotateY: real, rotateZ: real,
    rootTransX: real, rootTransY: real, rootTransZ: real,
    rootRotX: real, rootRotY: real, rootRotZ: real,
    rotateFinger: real, rotateWrist: real)
  {
    function Get(q: Param): real {
      match q
      case RotateX => rotateX
      case RotateY => rotateY
      case RotateZ => rotateZ
      case RootTransX => rootTransX
      case RootTransY => rootTransY
      case RootTransZ => rootTransZ
      case RootRotX => rootRotX
      case RootRotY => rootRotY
      case RootRotZ => rootRotZ
      case RotateFinger => rotateFinger
      case RotateWrist => rotateWrist
    }

    /** The snapshot with parameter q replaced by v and every other one kept. */
    function Set(q: Param, v: real): (r: Params)
      ensures r.Get(q) == v
      ensures forall q' :: q' != q ==> r.Get(q') == Get(q')
    {
      match q
      case RotateX => this.(rotateX := v)
      case RotateY => this.(rotateY := v)
      case RotateZ => this.(rotateZ := v)
      case RootTransX => this.(rootTransX := v)
      case RootTransY => this.(rootTransY := v)
      case RootTransZ => this.(rootTransZ := v)
      case RootRotX => this.(rootRotX := v)
      case RootRotY => this.(rootRotY := v)
      case RootRotZ => this.(rootRotZ := v)
      case RotateFinger => this.(rotateFinger := v)
      case RotateWrist => this.(rotateWrist := v)
    }
  }

  /** Every parameter starts at zero. */
  const INITIAL: Params := Params(0.0, 0.0, 0.0, 0.0, 0.0, 0.0, 0.0, 0.0, 0.0, 0.0, 0.0)

  /** The twelve recognised command characters. */
  const KEYS: set<char> := {'d', 'a', 'w', 's', 'e', 'q', ']', '[', 'p', 'o', 'b', 'v'}

  /** The parameters no command ever touches. */
  const UNTOUCHED: set<Param> := {RootRotX, RootRotZ, RotateX, RotateY, RotateZ}

  /** What a recognised command does: add `step` to `param`. */
  datatype Binding = Binding(param: Param, step: real)

  /** The key table: the parameter a key adjusts and the signed step. */
  function BindingOf(key: char): (r: Option<Binding>)
    ensures r.Some? <==> key in KEYS
    ensures r.Some? ==> r.value.param !in UNTOUCHED && r.value.step != 0.0
  {
    match key
    case 'd' => Some(Binding(RootTransX, 1.0))
    case 'a' => Some(Binding(RootTransX, -1.0))
    case 'w' => Some(Binding(RootTransY, 1.0))
    case 's' => Some(Binding(RootTransY, -1.0))
    case 'e' => Some(Binding(RootTransZ, 1.0))
    case 'q' => Some(Binding(RootTransZ, -1.0))
    case ']' => Some(Binding(RootRotY, 2.0))
    case '[' => Some(Binding(RootRotY, -2.0))
    case 'p' => Some(Binding(RotateFinger, 2.0))
    case 'o' => Some(Binding(RotateFinger, -2.0))
    case 'b' => Some(Binding(RotateWrist, 5.0))
    case 'v' => Some(Binding(RotateWrist, -5.0))
    case _ => None
  }

  /** The other key of a key's pair. */
  function Inverse(key: char): (r: char)
    requires key in KEYS
    ensures r in KEYS && r != key
    ensures BindingOf(r).value.param == BindingOf(key).value.param
    ensures BindingOf(r).value.step == -BindingOf(key).value.step
  {
    match key
    case 'd' => 'a'
    case 'a' => 'd'
    case 'w' => 's'
    case 's' => 'w'
    case 'e' => 'q'
    case 'q' => 'e'
    case ']' => '['
    case '[' => ']'
    case 'p' => 'o'
    case 'o' => 'p'
    case 'b' => 'v'
    case 'v' => 'b'
  }

  /** Pairing keys is an involution. */
  lemma InverseInvolutive(key: char)
    requires key in KEYS
    ensures Inverse(Inverse(key)) == key
  {
  }

  /** The effect of one key press on the parameters. */
  function Apply(p: Params, key: char): Params {
    match BindingOf(key)
    case None => p
    case Some(b) => p.Set(b.param, p.Get(b.param) + b.step)
  }

  /** The effect of a sequence of key presses, first to last. */
  function ApplyAll(p: Params, keys: seq<char>): Params
    decreases |keys|
  {
    if keys == [] then p else Apply(ApplyAll(p, keys[..|keys| - 1]), keys[|keys| - 1])
  }

  /** n presses of the same key. */
  function Repeat(key: char, n: nat): (r: seq<char>)
    ensures |r| == n && forall i :: 0 <= i < n ==> r[i] == key
  {
    if n == 0 then [] else Repeat(key, n - 1) + [key]
  }

  function Abs(x: real): real {
    if x < 0.0 then -x else x
  }

  /** Two snapshots that agree on every parameter are equal. */
  lemma ParamsExtensional(p: Params, p': Params)
    requires forall q :: p.Get(q) == p'.Get(q)
    ensures p == p'
  {
    assert p.Get(RotateX) == p'.Get(RotateX) && p.Get(RotateY) == p'.Get(RotateY);
    assert p.Get(RotateZ) == p'.Get(RotateZ) && p.Get(RootTransX) == p'.Get(RootTransX);
    assert p.Get(RootTransY) == p'.Get(RootTransY) && p.Get(RootTransZ) == p'.Get(RootTransZ);
    assert p.Get(RootRotX) == p'.Get(RootRotX) && p.Get(RootRotY) == p'.Get(RootRotY);
    assert p.Get(RootRotZ) == p'.Get(RootRotZ) && p.Get(RotateFinger) == p'.Get(RotateFinger);
    assert p.Get(RotateWrist) == p'.Get(RotateWrist);
  }

  /** An unrecognised key leaves every parameter as it was. */
  lemma UnknownKeyIsNoOp(p: Params, key: char)
    requires key !in KEYS
    ensures Apply(p, key) == p
  {
  }

  /**
   * A recognised key moves exactly one parameter, by its fixed non-zero step,
   * and leaves the other ten as they were.
   */
  lemma KeyChangesExactlyOne(p: Params, key: char)
    requires key in KEYS
    ensures var b := BindingOf(key).value;
      && Apply(p, key).Get(b.param) == p.Get(b.param) + b.step
      && Apply(p, key).Get(b.param) != p.Get(b.param)
      && forall q :: q != b.param ==> Apply(p, key).Get(q) == p.Get(q)
  {
  }

  /**
   * No key ever changes the root's x or z rotation or the three
   * timer-driven angles.
   */
  lemma {:induction false} UntouchedParamsNeverChange(p: Params, keys: seq<char>, q: Param)
    requires q in UNTOUCHED
    ensures ApplyAll(p, keys).Get(q) == p.Get(q)
    decreases |keys|
  {
    if keys != [] {
      UntouchedParamsNeverChange(p, keys[..|keys| - 1], q);
    }
  }

  /** Pressing a key and then its pair, in either order, restores the state. */
  lemma InversePairCancels(p: Params, key: char)
    requires key in KEYS
    ensures Apply(Apply(p, key), Inverse(key)) == p
  {
    var b := BindingOf(key).value;
    var p1 := Apply(p, key);
    var p2 := Apply(p1, Inverse(key));
    assert p2 == p1.Set(b.param, p1.Get(b.param) - b.step);
    forall q ensures p2.Get(q) == p.Get(q) {
    }
    ParamsExtensional(p2, p);
  }

  /** Any two key presses commute: each adds a constant to one parameter. */
  lemma KeysCommute(p: Params, k1: char, k2: char)
    ensures Apply(Apply(p, k1), k2) == Apply(Apply(p, k2), k1)
  {
    var l := Apply(Apply(p, k1), k2);
    var r := Apply(Apply(p, k2), k1);
    forall q ensures l.Get(q) == r.Get(q) {
    }
    ParamsExtensional(l, r);
  }

  /** How much one press of key moves parameter q. */
  function Delta(key: char, q: Param): real {
    match BindingOf(key)
    case Some(b) => if b.param == q then b.step else 0.0
    case None => 0.0
  }

  /** A key press adds its step to its own parameter and nothing to the others. */
  lemma ApplyAt(p: Params, key: char, q: Param)
    ensures Apply(p, key).Get(q) == p.Get(q) + Delta(key, q)
  {
  }

  /** n steps of size d, added one at a time. */
  function Steps(n: nat, d: real): real {
    if n == 0 then 0.0 else Steps(n - 1, d) + d
  }

  lemma {:induction false} StepsIsProduct(n: nat, d: real)
    ensures Steps(n, d) == (n as real) * d
  {
    if n > 0 {
      StepsIsProduct(n - 1, d);
      assert ((n - 1) as real) * d + d == (n as real) * d;
    }
  }

  lemma {:induction false} StepsAtLeast(n: nat, d: real)
    requires d >= 1.0 || d <= -1.0
    ensures Abs(Steps(n, d)) >= n as real
    ensures d > 0.0 ==> Steps(n, d) >= n as real
    ensures d < 0.0 ==> Steps(n, d) <= -(n as real)
  {
    if n > 0 {
      StepsAtLeast(n - 1, d);
    }
  }

  /** n presses of a key add n steps to its parameter and nothing to the others. */
  lemma {:induction false} RepeatAccumulatesAt(p: Params, key: char, n: nat, q: Param)
    ensures ApplyAll(p, Repeat(key, n)).Get(q) == p.Get(q) + Steps(n, Delta(key, q))
  {
    if n > 0 {
      var keys := Repeat(key, n);
      assert keys[..n - 1] == Repeat(key, n - 1);
      var prev := ApplyAll(p, Repeat(key, n - 1));
      assert ApplyAll(p, keys) == Apply(prev, key);
      RepeatAccumulatesAt(p, key, n - 1, q);
      ApplyAt(prev, key, q);
    }
  }

  /** A snapshot that differs from p by s at one parameter is p with that parameter set. */
  lemma ShiftedAt(p: Params, p': Params, param: Param, s: real)
    requires forall q :: p'.Get(q) == p.Get(q) + (if q == param then s else 0.0)
    ensures p' == p.Set(param, p.Get(param) + s)
  {
    var r := p.Set(param, p.Get(param) + s);
    forall q ensures p'.Get(q) == r.Get(q) {
      if q == param {
      } else {
      }
    }
    ParamsExtensional(p', r);
  }

  /** The same, as a statement about the whole snapshot. */
  lemma RepeatAccumulates(p: Params, key: char, n: nat)
    requires key in KEYS
    ensures var b := BindingOf(key).value;
      ApplyAll(p, Repeat(key, n)) == p.Set(b.param, p.Get(b.param) + Steps(n, b.step))
  {
    var b := BindingOf(key).value;
    var lhs := ApplyAll(p, Repeat(key, n));
    StepsIsProduct(n, 0.0);
    forall q ensures lhs.Get(q) == p.Get(q) + (if q == b.param then Steps(n, b.step) else 0.0) {
      RepeatAccumulatesAt(p, key, n, q);
    }
    ShiftedAt(p, lhs, b.param, Steps(n, b.step));
  }

  /** No clamping: enough presses of one key move its parameter arbitrarily far. */
  lemma {:induction false} KeyIsUnbounded(p: Params, key: char, bound: nat)
    requires key in KEYS
    ensures var q := BindingOf(key).value.param;
      exists n: nat :: Abs(ApplyAll(p, Repeat(key, n)).Get(q) - p.Get(q)) >= bound as real
  {
    var b := BindingOf(key).value;
    var d := b.step;
    StepMagnitude(key);
    assert Delta(key, b.param) == d;
    RepeatAccumulatesAt(p, key, bound, b.param);
    StepsAtLeast(bound, d);
    var moved := ApplyAll(p, Repeat(key, bound)).Get(b.param) - p.Get(b.param);
    assert moved == Steps(bound, d);
    assert Abs(moved) >= bound as real;
  }

  /** Every step is at least one unit in size. */
  lemma StepMagnitude(key: char)
    requires key in KEYS
    ensures BindingOf(key).value.step >= 1.0 || BindingOf(key).value.step <= -1.0
  {
  }

  /**
   * The global parameters as the renderer holds them: fields updated in
   * place by the keyboard callback.
   */
  class Scene {
    var rotateX: real
    var rotateY: real
    var rotateZ: real
    var rootTransX: real
    var rootTransY: real
    var rootTransZ: real
    var rootRotX: real
    var rootRotY: real
    var rootRotZ: real
    var rotateFinger: real
    var rotateWrist: real

    /** The current values as a snapshot. */
    function Snapshot(): Params
      reads this
    {
      Params(rotateX, rotateY, rotateZ, rootTransX, rootTransY, rootTransZ,
             rootRotX, rootRotY, rootRotZ, rotateFinger, rotateWrist)
    }

    constructor ()
      ensures Snapshot() == INITIAL
    {
      rotateX, rotateY, rotateZ := 0.0, 0.0, 0.0;
      rootTransX, rootTransY, rootTransZ := 0.0, 0.0, 0.0;
      rootRotX, rootRotY, rootRotZ := 0.0, 0.0, 0.0;
      rotateFinger, rotateWrist := 0.0, 0.0;
    }

    /** The keyboard callback: one test per recognised key, no clamping. */
    method Keypress(key: char)
      modifies this
      ensures Snapshot() == Apply(old(Snapshot()), key)
    {
      if key == 'd' {
        rootTransX := rootTransX + 1.0;
      }
      if key == 'a' {
        rootTransX := rootTransX - 1.0;
      }
      if key == 'w' {
        rootTransY := rootTransY + 1.0;
      }
      if key == 's' {
        rootTransY := rootTransY - 1.0;
      }
      if key == 'e' {
        rootTransZ := rootTransZ + 1.0;
      }
      if key == 'q' {
        rootTransZ := rootTransZ - 1.0;
      }
      if key == ']' {
        rootRotY := rootRotY + 2.0;
      }
      if key == '[' {
        rootRotY := rootRotY - 2.0;
      }
      if key == 'p' {
        rotateFinger := rotateFinger + 2.0;
      }
      if key == 'o' {
        rotateFinger := rotateFinger - 2.0;
      }
      if key == 'b' {
        rotateWrist := rotateWrist + 5.0;
      }
      if key == 'v' {
        rotateWrist := rotateWrist - 5.0;
      }
    }
  }
}
