/**
 * The vector and matrix vocabulary of the renderer.
 *
 * The matrix library itself (identity, translate, the three axis rotations
 * in degrees, perspective and matrix product) is not part of this model, so
 * its operations are represented as a free term algebra: a value of type Mat
 * records which library calls produced a matrix and with which arguments,
 * and nothing else. No law of matrix arithmetic (associativity, identity,
 * which side a translation multiplies on) is assumed. Every equation the
 * other modules prove between Mat values is an equality of call trees, so
 * it holds for whatever numeric meaning the real library gives those calls.
 * Floating-point components are modelled as reals.
 */
module Maths {

  datatype Vec2 = Vec2(x: real, y: real)

  datatype Vec3 = Vec3(x: real, y: real, z: real)

  datatype Mat =
    | Identity                                           // identity_mat4()
    | Translate(base: Mat, offset: Vec3)                 // translate(m, v)
    | RotateXDeg(base: Mat, degrees: real)               // rotate_x_deg(m, d)
    | RotateYDeg(base: Mat, degrees: real)               // rotate_y_deg(m, d)
    | RotateZDeg(base: Mat, degrees: real)               // rotate_z_deg(m, d)
    | Mul(left: Mat, right: Mat)                         // left * right
    | Perspective(fovY: real, aspect: real, near: real, far: real)
}
