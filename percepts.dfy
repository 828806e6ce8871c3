/** What an agent senses each tick: one immutable record per sensed object. */
module Percepts {

  datatype Category = Boid | Obstacle | Predator | Light | Other

  /** A sampled colour, each channel 0..255. */
  datatype Color = Color(red: int, green: int, blue: int)

  /**
   * A sensed object: its category, its distance, its bearing relative to
   * the agent's heading (`angle`), its absolute heading (`orientation`,
   * meaningful for boids) and its colour.
   */
  datatype Percept = Percept(
    category: Category,
    distance: real,
    angle: real,
    orientation: real,
    color: Color)
}
