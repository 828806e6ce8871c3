/**
 * The floating-point library and the World helpers the flocker calls.
 * Their definitions are not part of this model, so they are given as
 * function-valued fields of a record that every caller passes in; nothing
 * is assumed about them except where a lemma states it as a hypothesis.
 */
module Numerics {

  datatype Trig = Trig(
    /** Math.PI */
    pi: real,
    /** the agent constant that converts degrees to radians */
    degreesToRadians: real,
    /** the agent constant that converts radians to degrees */
    radiansToDegrees: real,
    /** Math.cos */
    cos: real -> real,
    /** Math.sin */
    sin: real -> real,
    /** Math.sqrt */
    sqrt: real -> real,
    /** Math.atan2(y, x) */
    atan2: (real, real) -> real,
    /** World.displacementOnCircle(from, to, circumference) */
    displacementOnCircle: (real, real, real) -> real,
    /** World.clampToCircle(angle, circumference) */
    clampToCircle: (real, real) -> real)

  /**
   * The quotient a/b for a positive divisor, and 0 otherwise. The model
   * uses it for the divisions by a percept distance. At a distance of zero
   * the source gives an IEEE infinity or NaN, and below zero a finite
   * negative ratio; `Quotient` gives 0 in both cases, so the force
   * functions agree with the source only where the distances are
   * positive. (The other division of the flocker, 1/neighborCount, happens
   * only when the count is at least 1 and is modelled exactly.)
   */
  function Quotient(a: real, b: real): real {
    if b > 0.0 then a / b else 0.0
  }
}
