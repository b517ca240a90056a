/** Value types shared by the feature-level modules of the road monitor. */
module Basics {

  /** A quantity the feature extractors never report negative (areas, variances). */
  type NonNegReal = x: real | x >= 0.0

  /** A pixel length that is at least one (bounding boxes are never empty). */
  type Positive = n: int | n >= 1 witness 1

  /** An optional value; `None` stands for an unbounded quantity such as an infinite time to collision. */
  datatype Option<T> = None | Some(value: T)
}
