/**
 * The circle record both batch variants store: a tuple of
 * (sf::Vector2f position, float radius, sf::Color color).
 */
module Circles {
  /**
   * A single-precision float, kept as its IEEE-754 bit pattern. The batch
   * only copies positions and radii into its buffers and never computes with
   * them, so nothing here needs their numeric value.
   */
  datatype Float32 = Float32(bits: bv32)

  /** An 8-bit unsigned colour channel (sf::Uint8). */
  newtype Byte = b: int | 0 <= b < 256

  datatype Vector2f = Vector2f(x: Float32, y: Float32)

  datatype Color = Color(r: Byte, g: Byte, b: Byte, a: Byte)

  /** A circle's identity is its index in the batch; the record has no name. */
  datatype Circle = Circle(position: Vector2f, radius: Float32, color: Color)
}
