/** The optional value used where the original produces nothing usable
    (an empty cv::Mat, or the NaN of a mean over an empty window). */
module Wrappers {
  datatype Option<+T> = None | Some(value: T)
}
