/** The values that cross the boundary between the detector and its two
    external collaborators: the hand-pose model, which yields hands made of
    landmark points, and the finger-pose gesture estimator, which yields
    named gesture scores. */
module Types {

  datatype Option<+T> = None | Some(value: T)

  /** One 3-D keypoint of a hand skeleton, in camera space. */
  datatype Point = Point(x: real, y: real, z: real)

  /** One hand as the pose model reports it; only its landmarks are used. */
  datatype Hand = Hand(landmarks: seq<Point>)

  /** One entry of the estimator's result list: a gesture name and its
      confidence. Scores are only ever compared, so `real` stands in for the
      estimator's floating-point numbers. */
  datatype GestureScore = GestureScore(name: string, score: real)

  /** The estimator's result object; `gestures` may be undefined. */
  datatype Estimation = Estimation(gestures: Option<seq<GestureScore>>)
}
